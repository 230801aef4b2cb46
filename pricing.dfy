/** The pricing page's add-on calculator: a five-item catalogue, the selected ids
    toggled by the add-on buttons, and the total shown under them. */
module Pricing {
  import opened Seqs
  import opened AddOnPricing
  import NewOrder

  const BasePrice: nat := 97

  /** The pricing page's catalogue. It differs from the order wizard's: it holds
      `aspect-ratios` where the wizard has `multiple-ratios`, and a `brand-kit`
      entry the wizard lacks. */
  const Catalogue := [
    AddOn("rush", "Rush Delivery (24-48hrs)", 97),
    AddOn("extra-hooks", "Extra Hook Variations", 47),
    AddOn("subtitles", "Subtitles & SRT Files", 27),
    AddOn("aspect-ratios", "Multiple Aspect Ratios", 37),
    AddOn("brand-kit", "Brand Kit Setup", 67)]

  /** `calculateTotal`: the base price plus each selected id's catalogue price. */
  function CalculateTotal(selected: seq<string>): (total: nat)
    ensures total >= BasePrice
    ensures selected == [] ==> total == BasePrice
  {
    BasePrice + AddOnSum(Catalogue, selected)
  }

  /** The catalogue's ids, in order. */
  const CatalogueIds := ["rush", "extra-hooks", "subtitles", "aspect-ratios", "brand-kit"]

  lemma IdsOfCatalogue()
    ensures Ids(Catalogue) == CatalogueIds
  {
    var ids := Ids(Catalogue);
    assert |ids| == |CatalogueIds|;
    forall k | 0 <= k < |ids| ensures ids[k] == CatalogueIds[k] {
      assert ids[k] == Catalogue[k].id;
    }
  }

  /** No id occurs twice in the catalogue. */
  lemma CatalogueIdsDistinct()
    ensures NoDuplicates(Ids(Catalogue))
  {
    IdsOfCatalogue();
    forall i, j | 0 <= i < j < |CatalogueIds| ensures CatalogueIds[i] != CatalogueIds[j] {
      if j == 4 && i == 2 {
        assert CatalogueIds[i][0] != CatalogueIds[j][0];
      } else {
        assert |CatalogueIds[i]| != |CatalogueIds[j]|;
      }
    }
  }

  /** Selecting every add-on, in catalogue order, comes to 372. */
  lemma AllFiveTotal()
    ensures CalculateTotal(CatalogueIds) == 372
  {
    CatalogueIdsDistinct();
    IdsOfCatalogue();
    SelectAll(Catalogue);
    CataloguePriceTotal();
  }

  /** The five prices add up to 275. */
  lemma CataloguePriceTotal()
    ensures PriceTotal(Catalogue) == 275
  {
    var c := Catalogue;
    assert PriceTotal(c[..1]) == 97 by { assert c[..1][..0] == []; }
    assert PriceTotal(c[..2]) == 144 by { assert c[..2][..1] == c[..1]; }
    assert PriceTotal(c[..3]) == 171 by { assert c[..3][..2] == c[..2]; }
    assert PriceTotal(c[..4]) == 208 by { assert c[..4][..3] == c[..3]; }
    assert c[..4] == c[..|c| - 1];
  }

  /** An id the catalogue does not hold adds nothing. */
  lemma UnknownIdAddsNothing(selected: seq<string>, unknown: string)
    requires unknown !in Ids(Catalogue)
    ensures CalculateTotal(selected + [unknown]) == CalculateTotal(selected)
  {
    SumSnoc(Catalogue, selected, unknown);
  }

  /** The catalogue never repeats an id, so each entry's id finds that entry. */
  lemma CataloguePrices(k: nat)
    requires k < |Catalogue|
    ensures PriceOf(Catalogue, Catalogue[k].id) == Catalogue[k].price
  {
    CatalogueIdsDistinct();
    PriceOfEntry(Catalogue, k);
  }

  /** The two pages price the same ids differently: `brand-kit` and
      `aspect-ratios` cost nothing in the wizard. */
  lemma BrandKitPricesDiffer()
    ensures PriceOf(Catalogue, "brand-kit") == 67
    ensures PriceOf(NewOrder.Catalogue, "brand-kit") == 0
  {
  }

  lemma AspectRatiosPricesDiffer()
    ensures PriceOf(Catalogue, "aspect-ratios") == 37
    ensures PriceOf(NewOrder.Catalogue, "aspect-ratios") == 0
  {
  }

  /** The page's state. */
  class PricingPage {
    var selectedAddOns: seq<string>

    /** The buttons never put an id in twice. */
    ghost predicate Valid()
      reads this
    {
      NoDuplicates(selectedAddOns)
    }

    constructor ()
      ensures Valid() && selectedAddOns == []
    {
      selectedAddOns := [];
    }

    /** `toggleAddOn`: a selected id is removed, any other is appended. */
    method ToggleAddOn(id: string)
      requires Valid()
      modifies this
      ensures Valid()
      ensures selectedAddOns == Toggle(old(selectedAddOns), id)
      ensures id in old(selectedAddOns) ==> Total() + PriceOf(Catalogue, id) == old(Total())
      ensures id !in old(selectedAddOns) ==> Total() == old(Total()) + PriceOf(Catalogue, id)
    {
      var before := selectedAddOns;
      ToggleKeepsNoDuplicates(before, id);
      if id in before {
        ToggleOffOnce(Catalogue, before, id);
        selectedAddOns := Without(before, id);
      } else {
        ToggleOnAddsPrice(Catalogue, before, id);
        selectedAddOns := before + [id];
      }
    }

    /** The total shown on the page. */
    function Total(): nat
      reads this
    {
      CalculateTotal(selectedAddOns)
    }

    /** Whether an add-on's card is drawn as selected. */
    predicate IsSelected(id: string)
      reads this
    {
      id in selectedAddOns
    }
  }

  /** Toggling the same id twice gives back the same selected ids and the same
      total. When the id was not selected the selection is restored exactly;
      when it was, it moves to the end. */
  lemma ToggleTwiceRestores(selected: seq<string>, id: string)
    requires NoDuplicates(selected)
    ensures multiset(Toggle(Toggle(selected, id), id)) == multiset(selected)
    ensures id !in selected ==> Toggle(Toggle(selected, id), id) == selected
    ensures CalculateTotal(Toggle(Toggle(selected, id), id)) == CalculateTotal(selected)
  {
    ToggleTwiceSameElements(selected, id);
    if id !in selected {
      ToggleTwiceAbsent(selected, id);
    }
    ToggleTwiceKeepsSum(Catalogue, selected, id);
  }
}
