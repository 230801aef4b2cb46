/** The orders page: the search box and status buttons that filter the order
    list, the buttons' labels, and the badge colour of each status. */
module Orders {
  import opened Seqs
  import opened Strings

  datatype Order = Order(id: string, title: string, platform: string, status: string, price: nat)

  /** The page's four sample orders. */
  const SampleOrders := [
    Order("ORD-001", "Fitness App Launch Campaign", "TikTok", "In Production", 97),
    Order("ORD-002", "E-commerce Product Demo", "Instagram", "Delivered", 144),
    Order("ORD-003", "SaaS Explainer Video", "YouTube", "In Review", 97),
    Order("ORD-004", "Beauty Brand Campaign", "TikTok", "Draft", 194)]

  /** The status buttons, in order. */
  const StatusFilters := ["all", "draft", "in-production", "in-review", "delivered"]

  /** The search term, lower-cased, occurs in the lower-cased title or id. */
  predicate MatchesSearch(o: Order, term: string) {
    Contains(ToLower(o.title), ToLower(term)) || Contains(ToLower(o.id), ToLower(term))
  }

  /** `status.toLowerCase().replace(' ', '-')`: only the first space becomes a
      dash. */
  function StatusSlug(status: string): (slug: string)
    ensures |slug| == |status|
    ensures forall i :: 0 <= i < |status| ==>
              slug[i] == (if i == IndexOf(ToLower(status), ' ') then '-' else LowerChar(status[i]))
  {
    ReplaceFirst(ToLower(status), ' ', '-')
  }

  predicate MatchesStatus(o: Order, filter: string) {
    filter == "all" || StatusSlug(o.status) == filter
  }

  predicate Matches(o: Order, term: string, filter: string) {
    MatchesSearch(o, term) && MatchesStatus(o, filter)
  }

  /** `filteredOrders`: the orders passing both the search and the status
      button, in their original order. */
  function FilteredOrders(orders: seq<Order>, term: string, filter: string): (r: seq<Order>)
    ensures IsSubsequence(r, orders)
    ensures forall o :: o in r <==> o in orders && Matches(o, term, filter)
  {
    FilterIsSubsequence(orders, o => Matches(o, term, filter));
    Filter(orders, o => Matches(o, term, filter))
  }

  /** An empty search with the `all` button shows every order. */
  lemma ShowAll(orders: seq<Order>)
    ensures FilteredOrders(orders, "", "all") == orders
  {
    forall o | o in orders ensures Matches(o, "", "all") {
      ContainsEmpty(ToLower(o.title));
    }
    FilterAll(orders, o => Matches(o, "", "all"));
  }

  lemma ShowAllSamples()
    ensures |FilteredOrders(SampleOrders, "", "all")| == 4
  {
    ShowAll(SampleOrders);
  }

  lemma LowerUpperChar(c: char)
    ensures LowerChar(UpperChar(c)) == LowerChar(c)
  {
  }

  /** The search ignores case: the term typed in capitals or in lower case
      finds the same orders. */
  lemma SearchIgnoresCase(o: Order, term: string)
    ensures MatchesSearch(o, ToUpper(term)) <==> MatchesSearch(o, term)
    ensures MatchesSearch(o, ToLower(term)) <==> MatchesSearch(o, term)
  {
    forall i | 0 <= i < |term| ensures ToLower(ToUpper(term))[i] == ToLower(term)[i] {
      LowerUpperChar(term[i]);
    }
    assert ToLower(ToUpper(term)) == ToLower(term);
    ToLowerIdempotent(term);
  }

  /** A term that occurs in the lower-cased title, or in the lower-cased id,
      matches. */
  lemma SubstringMatches(o: Order, term: string, i: int)
    requires OccursAt(ToLower(o.title), ToLower(term), i) || OccursAt(ToLower(o.id), ToLower(term), i)
    ensures MatchesSearch(o, term)
  {
    if OccursAt(ToLower(o.title), ToLower(term), i) {
      OccursAtContains(ToLower(o.title), ToLower(term), i);
    } else {
      OccursAtContains(ToLower(o.id), ToLower(term), i);
    }
  }

  /** A status whose lower-cased form has its space at offset 2. */
  lemma TwoWordSlug(status: string, lower: string, slug: string)
    requires ToLower(status) == lower && |lower| > 2 && lower[2] == ' ' && ' ' !in lower[..2]
    requires lower[2 := '-'] == slug
    ensures StatusSlug(status) == slug
  {
    IndexOfAt(lower, ' ', 2);
  }

  /** A status without a space is only lower-cased. */
  lemma OneWordSlug(status: string, lower: string)
    requires ToLower(status) == lower && ' ' !in lower
    ensures StatusSlug(status) == lower
  {
  }

  /** The label of a status button: the first character upper-cased, then the
      rest with its first dash turned into a space. */
  function FilterLabel(status: string): (text: string)
    ensures |text| == |status|
    ensures status != [] ==> text[0] == UpperChar(status[0])
    ensures status != [] && '-' !in status[1..] ==> text[1..] == status[1..]
    ensures forall i :: 1 <= i < |status| ==>
              text[i] == (if i - 1 == IndexOf(status[1..], '-') then ' ' else status[i])
  {
    if status == [] then [] else ToUpper(status[..1]) + ReplaceFirst(status[1..], '-', ' ')
  }

  /** The `all` button's label. */
  lemma AllButton()
    ensures FilterLabel("all") == "All"
  {
    LabelWithoutDash("all", "All");
  }

  /** Each status button is labelled after its value (`...Label`), and the
      sample status of that name reaches that value (`...Slug`). */
  lemma DraftLabel()
    ensures FilterLabel("draft") == "Draft"
  {
    LabelWithoutDash("draft", "Draft");
  }

  lemma DraftSlug()
    ensures StatusSlug("Draft") == "draft"
  {
    OneWordSlug("Draft", "draft");
  }

  lemma InProductionLabel()
    ensures FilterLabel("in-production") == "In production"
  {
    LabelWithDash("in-production", "In production");
  }

  lemma InProductionSlug()
    ensures StatusSlug("In Production") == "in-production"
  {
    TwoWordSlug("In Production", "in production", "in-production");
  }

  lemma InReviewLabel()
    ensures FilterLabel("in-review") == "In review"
  {
    LabelWithDash("in-review", "In review");
  }

  lemma InReviewSlug()
    ensures StatusSlug("In Review") == "in-review"
  {
    TwoWordSlug("In Review", "in review", "in-review");
  }

  lemma DeliveredLabel()
    ensures FilterLabel("delivered") == "Delivered"
  {
    LabelWithoutDash("delivered", "Delivered");
  }

  lemma DeliveredSlug()
    ensures StatusSlug("Delivered") == "delivered"
  {
    OneWordSlug("Delivered", "delivered");
  }

  /** With an empty search, the `delivered` button keeps only the delivered
      sample order. */
  lemma DeliveredFilter()
    ensures FilteredOrders(SampleOrders, "", "delivered") == [SampleOrders[1]]
  {
    InProductionSlug();
    DeliveredSlug();
    InReviewSlug();
    DraftSlug();
    ContainsEmpty(ToLower(SampleOrders[1].title));
    var p := (o: Order) => Matches(o, "", "delivered");
    assert !p(SampleOrders[0]) && p(SampleOrders[1]) && !p(SampleOrders[2]) && !p(SampleOrders[3]);
    assert Filter(SampleOrders[3..], p) == [];
    assert SampleOrders[2..][1..] == SampleOrders[3..];
    assert Filter(SampleOrders[2..], p) == [];
    assert SampleOrders[1..][1..] == SampleOrders[2..];
  }

  /** A status without a dash after its first character only has that character
      upper-cased. */
  lemma LabelWithoutDash(status: string, text: string)
    requires status != [] && '-' !in status[1..] && ToUpper(status[..1]) + status[1..] == text
    ensures FilterLabel(status) == text
  {
  }

  /** A status whose first dash is its third character has that dash turned into
      a space. */
  lemma LabelWithDash(status: string, text: string)
    requires |status| > 2 && status[2] == '-' && status[1] != '-'
    requires ToUpper(status[..1]) + status[1..][1 := ' '] == text
    ensures FilterLabel(status) == text
  {
    assert status[1..][..1] == [status[1]];
    IndexOfAt(status[1..], '-', 1);
  }

  const DeliveredColor := "text-green-400 bg-green-400/20 border-green-400/30"
  const ProductionColor := "text-yellow-400 bg-yellow-400/20 border-yellow-400/30"
  const ReviewColor := "text-blue-400 bg-blue-400/20 border-blue-400/30"
  const NeutralColor := "text-white/60 bg-white/10 border-white/20"

  /** `getStatusColor`. `Draft` has its own case, but it returns the same
      classes as the default. */
  function StatusColor(status: string): (c: string)
    ensures status == "Delivered" ==> c == DeliveredColor
    ensures status == "In Production" ==> c == ProductionColor
    ensures status == "In Review" ==> c == ReviewColor
    ensures status !in {"Delivered", "In Production", "In Review"} ==> c == NeutralColor
  {
    if status == "Delivered" then DeliveredColor
    else if status == "In Production" then ProductionColor
    else if status == "In Review" then ReviewColor
    else if status == "Draft" then NeutralColor
    else NeutralColor
  }

  /** The three working statuses get three different badges, none of them the
      neutral one that `Draft` and every unknown status share. */
  lemma StatusColorsDistinct()
    ensures StatusColor("Delivered") != StatusColor("In Production")
    ensures StatusColor("Delivered") != StatusColor("In Review")
    ensures StatusColor("In Production") != StatusColor("In Review")
    ensures StatusColor("Delivered") != NeutralColor
    ensures StatusColor("In Production") != NeutralColor
    ensures StatusColor("In Review") != NeutralColor
    ensures StatusColor("Draft") == NeutralColor
  {
  }
}
