/** The add-on price total shared by the order wizard and the pricing page: a base
    price plus a left fold over the selected ids, each looked up in a fixed
    catalogue. */
module AddOnPricing {
  import opened Seqs

  /** One catalogue entry. */
  datatype AddOn = AddOn(id: string, name: string, price: nat)

  function Ids(catalogue: seq<AddOn>): (r: seq<string>)
    ensures |r| == |catalogue|
    ensures forall k :: 0 <= k < |r| ==> r[k] == catalogue[k].id
  {
    if catalogue == [] then [] else [catalogue[0].id] + Ids(catalogue[1..])
  }

  /** `catalogue.find(a => a.id === id)?.price || 0`: the first entry's price, or 0
      for an id the catalogue does not hold. */
  function PriceOf(catalogue: seq<AddOn>, id: string): (p: nat)
    ensures id !in Ids(catalogue) ==> p == 0
  {
    if catalogue == [] then 0
    else if catalogue[0].id == id then catalogue[0].price
    else PriceOf(catalogue[1..], id)
  }

  /** In a catalogue without repeated ids, every entry's id finds that entry. */
  lemma {:induction false} PriceOfEntry(catalogue: seq<AddOn>, k: nat)
    requires k < |catalogue| && NoDuplicates(Ids(catalogue))
    ensures PriceOf(catalogue, catalogue[k].id) == catalogue[k].price
  {
    if k > 0 {
      assert Ids(catalogue)[0] != Ids(catalogue)[k];
      var tail := catalogue[1..];
      assert NoDuplicates(Ids(tail)) by {
        forall i, j | 0 <= i < j < |Ids(tail)| ensures Ids(tail)[i] != Ids(tail)[j] {
          assert Ids(tail)[i] == Ids(catalogue)[i + 1] && Ids(tail)[j] == Ids(catalogue)[j + 1];
        }
      }
      PriceOfEntry(tail, k - 1);
    }
  }

  /** `ids.reduce((total, id) => total + PriceOf(id), 0)`, folded from the left. */
  function AddOnSum(catalogue: seq<AddOn>, ids: seq<string>): (r: nat)
    ensures ids == [] ==> r == 0
    ensures forall id :: id in ids ==> PriceOf(catalogue, id) <= r
  {
    if ids == [] then 0
    else AddOnSum(catalogue, ids[..|ids| - 1]) + PriceOf(catalogue, ids[|ids| - 1])
  }

  /** The sum over a concatenation is the sum of the sums. */
  lemma {:induction false} SumAppend(catalogue: seq<AddOn>, a: seq<string>, b: seq<string>)
    ensures AddOnSum(catalogue, a + b) == AddOnSum(catalogue, a) + AddOnSum(catalogue, b)
    decreases |b|
  {
    if b == [] {
      assert a + b == a;
    } else {
      var b' := b[..|b| - 1];
      assert (a + b)[..|a + b| - 1] == a + b';
      SumAppend(catalogue, a, b');
    }
  }

  /** Appending one id adds its price. */
  lemma SumSnoc(catalogue: seq<AddOn>, s: seq<string>, x: string)
    ensures AddOnSum(catalogue, s + [x]) == AddOnSum(catalogue, s) + PriceOf(catalogue, x)
  {
    assert (s + [x])[..|s + [x]| - 1] == s;
  }

  /** The prices of every entry, added up. */
  function PriceTotal(catalogue: seq<AddOn>): nat {
    if catalogue == [] then 0
    else PriceTotal(catalogue[..|catalogue| - 1]) + catalogue[|catalogue| - 1].price
  }

  /** Selecting the first `k` entries of a catalogue without repeated ids costs
      their prices added up. */
  lemma {:induction false} SumOfPrefix(catalogue: seq<AddOn>, k: nat)
    requires k <= |catalogue| && NoDuplicates(Ids(catalogue))
    ensures AddOnSum(catalogue, Ids(catalogue)[..k]) == PriceTotal(catalogue[..k])
  {
    if k > 0 {
      SumOfPrefix(catalogue, k - 1);
      PrefixSumStep(catalogue, k);
      PrefixPriceStep(catalogue, k);
      PriceOfEntry(catalogue, k - 1);
    }
  }

  /** Selecting every entry of a catalogue without repeated ids, in catalogue
      order, costs all its prices added up. */
  lemma SelectAll(catalogue: seq<AddOn>)
    requires NoDuplicates(Ids(catalogue))
    ensures AddOnSum(catalogue, Ids(catalogue)) == PriceTotal(catalogue)
  {
    SumOfPrefix(catalogue, |catalogue|);
    assert Ids(catalogue)[..|catalogue|] == Ids(catalogue);
    assert catalogue[..|catalogue|] == catalogue;
  }

  /** One more entry of the prefix adds its id to the selection and its price to
      the total. */
  lemma PrefixSumStep(catalogue: seq<AddOn>, k: nat)
    requires 0 < k <= |catalogue|
    ensures AddOnSum(catalogue, Ids(catalogue)[..k])
            == AddOnSum(catalogue, Ids(catalogue)[..k - 1]) + PriceOf(catalogue, catalogue[k - 1].id)
  {
    var ids := Ids(catalogue);
    var prefix := ids[..k];
    assert prefix[..|prefix| - 1] == ids[..k - 1];
    assert prefix[|prefix| - 1] == catalogue[k - 1].id;
  }

  lemma PrefixPriceStep(catalogue: seq<AddOn>, k: nat)
    requires 0 < k <= |catalogue|
    ensures PriceTotal(catalogue[..k]) == PriceTotal(catalogue[..k - 1]) + catalogue[k - 1].price
  {
    var prefix := catalogue[..k];
    assert prefix[..|prefix| - 1] == catalogue[..k - 1];
    assert prefix[|prefix| - 1] == catalogue[k - 1];
  }

  lemma SumCons(catalogue: seq<AddOn>, x: string, s: seq<string>)
    ensures AddOnSum(catalogue, [x] + s) == PriceOf(catalogue, x) + AddOnSum(catalogue, s)
  {
    SumAppend(catalogue, [x], s);
    assert AddOnSum(catalogue, [x]) == AddOnSum(catalogue, []) + PriceOf(catalogue, x);
  }

  /** Ids the catalogue does not know contribute nothing. */
  lemma {:induction false} SumOfUnknownIds(catalogue: seq<AddOn>, ids: seq<string>)
    requires forall x :: x in ids ==> x !in Ids(catalogue)
    ensures AddOnSum(catalogue, ids) == 0
  {
    if ids != [] {
      SumOfUnknownIds(catalogue, ids[..|ids| - 1]);
    }
  }

  /** `p` once for each occurrence of `v` in `s`. */
  function PerOccurrence(s: seq<string>, v: string, p: nat): nat {
    if s == [] then 0 else (if s[0] == v then p else 0) + PerOccurrence(s[1..], v, p)
  }

  lemma {:induction false} PerOccurrenceIsProduct(s: seq<string>, v: string, p: nat)
    ensures PerOccurrence(s, v, p) == Count(s, v) * p
  {
    if s != [] {
      PerOccurrenceIsProduct(s[1..], v, p);
      if s[0] == v {
        MulSucc(Count(s[1..], v), p);
      }
    }
  }

  lemma MulSucc(c: nat, p: nat)
    ensures (c + 1) * p == c * p + p
  {
  }

  /** Removing every occurrence of `v` takes off its price once per occurrence. */
  lemma SumWithout(catalogue: seq<AddOn>, s: seq<string>, v: string)
    ensures AddOnSum(catalogue, Without(s, v)) + Count(s, v) * PriceOf(catalogue, v) == AddOnSum(catalogue, s)
  {
    SumWithoutOccurrences(catalogue, s, v);
    PerOccurrenceIsProduct(s, v, PriceOf(catalogue, v));
  }

  lemma {:induction false} SumWithoutOccurrences(catalogue: seq<AddOn>, s: seq<string>, v: string)
    ensures AddOnSum(catalogue, Without(s, v)) + PerOccurrence(s, v, PriceOf(catalogue, v)) == AddOnSum(catalogue, s)
  {
    if s != [] {
      var t := s[1..];
      SumWithoutOccurrences(catalogue, t, v);
      assert s == [s[0]] + t;
      SumCons(catalogue, s[0], t);
      WithoutCons(s, v);
      if s[0] != v {
        SumCons(catalogue, s[0], Without(t, v));
      }
    }
  }

  /** Toggling on an absent id adds exactly its price. */
  lemma ToggleOnAddsPrice(catalogue: seq<AddOn>, s: seq<string>, v: string)
    requires v !in s
    ensures AddOnSum(catalogue, Toggle(s, v)) == AddOnSum(catalogue, s) + PriceOf(catalogue, v)
  {
    SumAppend(catalogue, s, [v]);
    assert AddOnSum(catalogue, [v]) == AddOnSum(catalogue, []) + PriceOf(catalogue, v);
  }

  /** Toggling off an id that occurs once takes its price off. */
  lemma ToggleOffOnce(catalogue: seq<AddOn>, s: seq<string>, v: string)
    requires v in s && NoDuplicates(s)
    ensures AddOnSum(catalogue, Toggle(s, v)) + PriceOf(catalogue, v) == AddOnSum(catalogue, s)
  {
    OccursOnce(s, v);
    CountIsMultiplicity(s, v);
    var p := PriceOf(catalogue, v);
    SumWithout(catalogue, s, v);
    assert Count(s, v) * p == p;
  }

  /** Toggling off a present id takes its price off once per occurrence. */
  lemma ToggleOffRemovesPrice(catalogue: seq<AddOn>, s: seq<string>, v: string)
    requires v in s
    ensures AddOnSum(catalogue, Toggle(s, v)) == AddOnSum(catalogue, s) - Count(s, v) * PriceOf(catalogue, v)
  {
    SumWithout(catalogue, s, v);
  }

  /** Removing an id that occurs once and appending it again keeps the sum. */
  lemma MoveToEndKeepsSum(catalogue: seq<AddOn>, s: seq<string>, v: string)
    requires Count(s, v) == 1
    ensures AddOnSum(catalogue, Without(s, v) + [v]) == AddOnSum(catalogue, s)
  {
    var w, p := Without(s, v), PriceOf(catalogue, v);
    SumWithout(catalogue, s, v);
    assert AddOnSum(catalogue, w) + p == AddOnSum(catalogue, s);
    SumAppend(catalogue, w, [v]);
    assert AddOnSum(catalogue, [v]) == AddOnSum(catalogue, []) + p;
  }

  /** Without duplicates, toggling the same id twice restores the sum. */
  lemma ToggleTwiceKeepsSum(catalogue: seq<AddOn>, s: seq<string>, v: string)
    requires NoDuplicates(s)
    ensures AddOnSum(catalogue, Toggle(Toggle(s, v), v)) == AddOnSum(catalogue, s)
  {
    if v in s {
      ToggleTwicePresent(s, v);
      OccursOnce(s, v);
      CountIsMultiplicity(s, v);
      MoveToEndKeepsSum(catalogue, s, v);
    } else {
      ToggleTwiceAbsent(s, v);
    }
  }
}
