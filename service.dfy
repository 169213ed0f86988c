/**
  The banking tool set: five request/response tools answering queries against a
  product catalog. The catalog is loaded once by the host process and only read
  afterwards, so here it is a value handed to each tool.
 */
module Service {
  import opened Wrappers
  import opened Sequences

  /** The three product families a caller may ask for, each with its catalog spelling. */
  datatype ProductType = Student | Hni | Mass {
    function Value(): string {
      match this
      case Student => "Student"
      case Hni => "HNI"
      case Mass => "Mass"
    }
  }

  /** Enum lookup by value: the member whose spelling is exactly `value`, if any. */
  function ParseProductType(value: string): (r: Option<ProductType>)
    ensures r.Some? ==> r.value.Value() == value
    ensures r.None? ==> forall t: ProductType :: t.Value() != value
  {
    if value == "Student" then Some(Student)
    else if value == "HNI" then Some(Hni)
    else if value == "Mass" then Some(Mass)
    else None
  }

  /** Each member's spelling looks up that member again, so distinct members are spelt differently. */
  lemma ValueRoundTrip(t: ProductType)
    ensures ParseProductType(t.Value()) == Some(t)
    ensures forall u: ProductType :: u.Value() == t.Value() ==> u == t
  {
  }

  /**
    One catalog entry: its `type` field, its `minimum_account_balance` field and
    every other field of the record, which the tools pass through untouched.
   */
  datatype Product = Product(productType: string, minimumAccountBalance: real, details: map<string, string>)

  type Catalog = seq<Product>

  /** The value stored under a tool result's single key: a list of products or a status string. */
  datatype ToolData = Products(items: seq<Product>) | Text(text: string)

  /** A tool's answer: a mapping with exactly one key. */
  datatype ToolResult = ToolResult(key: string, data: ToolData)

  /** The condition of the comprehension in `get_products_by_type`. */
  function OfType(t: ProductType): Product -> bool
  {
    (item: Product) => item.productType == t.Value()
  }

  /** The condition of the comprehension in `inquire_eligibility`. */
  function AtLeast(minimumAccountBalance: real): Product -> bool
  {
    (item: Product) => item.minimumAccountBalance >= minimumAccountBalance
  }

  /** The catalog entries whose type is `t`'s spelling, in catalog order. */
  function ProductsOfType(db: Catalog, t: ProductType): (r: seq<Product>)
    ensures forall x :: x in r <==> x in db && x.productType == t.Value()
    ensures IsSubsequence(r, db)
    ensures r == [] <==> forall i :: 0 <= i < |db| ==> db[i].productType != t.Value()
  {
    FilterMembers(db, OfType(t));
    FilterIsSubsequence(db, OfType(t));
    FilterEmpty(db, OfType(t));
    Filter(db, OfType(t))
  }

  /** `get_products_by_type`: the matching entries under the key `available_products`. */
  function GetProductsByType(db: Catalog, productType: ProductType): (r: ToolResult)
    ensures r.key == "available_products"
    ensures r.data == Products(ProductsOfType(db, productType))
  {
    ToolResult("available_products", Products(ProductsOfType(db, productType)))
  }

  /**
    The catalog entries whose minimum balance is at least the given figure, in
    catalog order. An entry whose minimum lies below the figure is not returned.
   */
  function EligibleProducts(db: Catalog, minimumAccountBalance: real): (r: seq<Product>)
    ensures forall x :: x in r <==> x in db && x.minimumAccountBalance >= minimumAccountBalance
    ensures IsSubsequence(r, db)
    ensures r == [] <==> forall i :: 0 <= i < |db| ==> db[i].minimumAccountBalance < minimumAccountBalance
  {
    FilterMembers(db, AtLeast(minimumAccountBalance));
    FilterIsSubsequence(db, AtLeast(minimumAccountBalance));
    FilterEmpty(db, AtLeast(minimumAccountBalance));
    Filter(db, AtLeast(minimumAccountBalance))
  }

  /** `inquire_eligibility`: the selected entries under the key `eligible_for`. */
  function InquireEligibility(db: Catalog, minimumAccountBalance: real): (r: ToolResult)
    ensures r.key == "eligible_for"
    ensures r.data == Products(EligibleProducts(db, minimumAccountBalance))
  {
    ToolResult("eligible_for", Products(EligibleProducts(db, minimumAccountBalance)))
  }

  /** `lock_card`: a canned answer; the card id plays no part. */
  function LockCard(cardId: int): (r: ToolResult)
    ensures r.key == "card_status" && r.data == Text("locked")
  {
    ToolResult("card_status", Text("locked"))
  }

  /** `unlock_card`: a canned answer; the card id plays no part. */
  function UnlockCard(cardId: int): (r: ToolResult)
    ensures r.key == "card_status" && r.data == Text("unlocked")
  {
    ToolResult("card_status", Text("unlocked"))
  }

  const FraudTerms: seq<string> := ["fraud", "scam", "duped"]
  const LossTerms: seq<string> := ["misplaced", "lost", "can't find"]

  function DivertTo(agent: string): ToolResult
  {
    ToolResult("divert_to", Text(agent))
  }

  /**
    `report_incident`, branch for branch as written: the third test repeats the
    first, so its answer is never given, and an incident in neither list gets no
    answer at all.
   */
  function ReportIncident(incidentType: string): (r: Option<ToolResult>)
    ensures r == Some(DivertTo("Fred")) <==> incidentType in FraudTerms
    ensures r == Some(DivertTo("Mitchell")) <==> incidentType in LossTerms
    ensures r == None <==> incidentType !in FraudTerms && incidentType !in LossTerms
    ensures r != Some(DivertTo("Sam"))
  {
    if incidentType in FraudTerms then Some(DivertTo("Fred"))
    else if incidentType in LossTerms then Some(DivertTo("Mitchell"))
    else if incidentType in FraudTerms then Some(DivertTo("Sam"))
    else None
  }

  // Properties relating several calls

  /** A type query keeps every matching entry as often as the catalog holds it, and nothing else. */
  lemma TypeQueryCounts(db: Catalog, t: ProductType)
    ensures forall x :: multiset(ProductsOfType(db, t))[x] == if x.productType == t.Value() then multiset(db)[x] else 0
  {
    FilterCount(db, OfType(t));
  }

  /** A balance query keeps every entry that meets the figure as often as the catalog holds it, and nothing else. */
  lemma EligibilityCounts(db: Catalog, minimumAccountBalance: real)
    ensures forall x :: multiset(EligibleProducts(db, minimumAccountBalance))[x]
                     == if x.minimumAccountBalance >= minimumAccountBalance then multiset(db)[x] else 0
  {
    FilterCount(db, AtLeast(minimumAccountBalance));
  }

  /** Entries of different types never meet: the three type queries share no product. */
  lemma TypeQueriesDisjoint(db: Catalog, t1: ProductType, t2: ProductType)
    requires t1 != t2
    ensures multiset(ProductsOfType(db, t1)) !! multiset(ProductsOfType(db, t2))
  {
  }

  /**
    When every entry carries one of the three spellings, the three type queries
    split the catalog: together they hold each entry exactly as often as the
    catalog does, so their lengths add up to the catalog's.
   */
  lemma TypeQueriesPartition(db: Catalog)
    requires forall x :: x in db ==> ParseProductType(x.productType).Some?
    ensures multiset(ProductsOfType(db, ProductType.Student)) + multiset(ProductsOfType(db, ProductType.Hni))
          + multiset(ProductsOfType(db, ProductType.Mass)) == multiset(db)
    ensures |ProductsOfType(db, ProductType.Student)| + |ProductsOfType(db, ProductType.Hni)| + |ProductsOfType(db, ProductType.Mass)| == |db|
  {
    FilterPartition3(db, OfType(ProductType.Student), OfType(ProductType.Hni), OfType(ProductType.Mass));
    assert |multiset(db)| == |db|;
  }

  /**
    Raising the threshold only drops entries: the answer for the higher figure is
    the answer for the lower one filtered again, hence a subsequence of it and
    never longer.
   */
  lemma EligibilityAntitone(db: Catalog, lower: real, higher: real)
    requires lower <= higher
    ensures EligibleProducts(db, higher) == Filter(EligibleProducts(db, lower), AtLeast(higher))
    ensures IsSubsequence(EligibleProducts(db, higher), EligibleProducts(db, lower))
    ensures |EligibleProducts(db, higher)| <= |EligibleProducts(db, lower)|
  {
    FilterOfFilter(db, AtLeast(lower), AtLeast(higher));
    FilterIsSubsequence(EligibleProducts(db, lower), AtLeast(higher));
  }

  /** Both selections are built front to back: splitting the catalog splits the answer. */
  lemma SelectionsFollowCatalogOrder(front: Catalog, back: Catalog, t: ProductType, minimumAccountBalance: real)
    ensures ProductsOfType(front + back, t) == ProductsOfType(front, t) + ProductsOfType(back, t)
    ensures EligibleProducts(front + back, minimumAccountBalance)
         == EligibleProducts(front, minimumAccountBalance) + EligibleProducts(back, minimumAccountBalance)
  {
    FilterAppend(front, back, OfType(t));
    FilterAppend(front, back, AtLeast(minimumAccountBalance));
  }

  /** The card tools answer the same for every card id, and never the same as each other. */
  lemma CardToolsIgnoreId(a: int, b: int)
    ensures LockCard(a) == LockCard(b) && UnlockCard(a) == UnlockCard(b)
    ensures LockCard(a) != UnlockCard(b)
  {
  }
}
