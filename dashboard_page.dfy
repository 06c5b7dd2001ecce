/**
 * The dashboard: product and category totals, the average price and a table of the first
 * five products with their category names.
 */
module DashboardPage {
  import opened Outcomes
  import opened Lists
  import opened Entities
  import opened Services

  const RecentCount: nat := 5
  const MissingCategoryLabel: string := "N/A"

  /** `products.reduce((acc, curr) => acc + Number(curr.price), 0)`, folded from the left. */
  function TotalValue(ps: seq<Product>): real
  {
    if ps == [] then 0.0 else TotalValue(ps[..|ps| - 1]) + ps[|ps| - 1].price
  }

  /** `totalProducts > 0 ? totalValue / totalProducts : 0`. */
  function AveragePrice(ps: seq<Product>): (avg: real)
    ensures ps == [] ==> avg == 0.0
    ensures ps != [] ==> avg * (|ps| as real) == TotalValue(ps)
  {
    if |ps| > 0 then TotalValue(ps) / (|ps| as real) else 0.0
  }

  predicate PricesWithin(ps: seq<Product>, lo: real, hi: real)
  {
    forall i :: 0 <= i < |ps| ==> lo <= ps[i].price <= hi
  }

  /** The total lies between the count times the lowest and the count times the highest price. */
  lemma {:induction false} TotalValueBounds(ps: seq<Product>, lo: real, hi: real)
    requires PricesWithin(ps, lo, hi)
    ensures (|ps| as real) * lo <= TotalValue(ps) <= (|ps| as real) * hi
  {
    if ps != [] {
      var init := ps[..|ps| - 1];
      assert PricesWithin(init, lo, hi) by {
        forall i | 0 <= i < |init| ensures lo <= init[i].price <= hi {
          assert init[i] == ps[i];
        }
      }
      TotalValueBounds(init, lo, hi);
      assert lo <= ps[|ps| - 1].price <= hi;
      assert (|ps| as real) == (|init| as real) + 1.0;
    }
  }

  /** The average price of a non-empty list lies between its lowest and highest price. */
  lemma AverageWithinPrices(ps: seq<Product>, lo: real, hi: real)
    requires ps != [] && PricesWithin(ps, lo, hi)
    ensures lo <= AveragePrice(ps) <= hi
  {
    TotalValueBounds(ps, lo, hi);
    var n := |ps| as real;
    var avg := AveragePrice(ps);
    assert avg * n == TotalValue(ps);
  }

  /** `products.slice(0, 5)`. */
  function RecentProducts(ps: seq<Product>): (r: seq<Product>)
    ensures |r| == if |ps| < RecentCount then |ps| else RecentCount
    ensures r <= ps
  {
    if |ps| < RecentCount then ps else ps[..RecentCount]
  }

  function HasCategoryId(p: Product): Category -> bool
  {
    (c: Category) => c.id == Some(p.categoryId)
  }

  /** `categories.find(c => c.id === product.categoryId)?.name || 'N/A'`. */
  function CategoryLabel(cats: seq<Category>, p: Product): string
  {
    match FindIndex(cats, HasCategoryId(p))
    case None => MissingCategoryLabel
    case Some(i) => if cats[i].name != "" then cats[i].name else MissingCategoryLabel
  }

  /**
   * The label is the name of the first category whose id is the product's category id,
   * and `N/A` when there is none or its name is empty.
   */
  lemma CategoryLabelSpec(cats: seq<Category>, p: Product)
    ensures CategoryLabel(cats, p) != MissingCategoryLabel ==>
              exists i :: 0 <= i < |cats| && cats[i].id == Some(p.categoryId)
                          && cats[i].name == CategoryLabel(cats, p)
    ensures forall i :: 0 <= i < |cats| && cats[i].id == Some(p.categoryId)
                        && (forall j :: 0 <= j < i ==> cats[j].id != Some(p.categoryId))
                        ==> CategoryLabel(cats, p)
                            == (if cats[i].name != "" then cats[i].name else MissingCategoryLabel)
    ensures (forall i :: 0 <= i < |cats| ==> cats[i].id != Some(p.categoryId)) ==>
              CategoryLabel(cats, p) == MissingCategoryLabel
  {
    var r := FindIndex(cats, HasCategoryId(p));
    if r.Some? {
      assert HasCategoryId(p)(cats[r.value]);
    } else {
      forall i | 0 <= i < |cats| ensures cats[i].id != Some(p.categoryId) {
        assert !HasCategoryId(p)(cats[i]);
      }
    }
    forall i | 0 <= i < |cats| && cats[i].id == Some(p.categoryId)
               && (forall j :: 0 <= j < i ==> cats[j].id != Some(p.categoryId))
      ensures CategoryLabel(cats, p)
              == (if cats[i].name != "" then cats[i].name else MissingCategoryLabel)
    {
      assert HasCategoryId(p)(cats[i]);
      if r.Some? {
        assert HasCategoryId(p)(cats[r.value]);
        assert !(r.value < i);
      }
    }
  }

  /** One row of the recent-products table. */
  datatype Row = Row(name: string, category: string, price: real, image: Option<string>)

  function RowOf(cats: seq<Category>): Product -> Row
  {
    (p: Product) => Row(p.name, CategoryLabel(cats, p), p.price, p.image)
  }

  function RecentRows(ps: seq<Product>, cats: seq<Category>): (rows: seq<Row>)
    ensures |rows| == |RecentProducts(ps)|
    ensures forall i :: 0 <= i < |rows| ==>
              rows[i].name == ps[i].name && rows[i].price == ps[i].price
              && rows[i].category == CategoryLabel(cats, ps[i])
  {
    Map(RecentProducts(ps), RowOf(cats))
  }

  /** What the screen shows: a spinner while loading, otherwise the statistics and the table. */
  datatype View =
    | Spinner
    | Summary(totalProducts: nat, totalCategories: nat, totalValue: real, averagePrice: real, rows: seq<Row>)

  function ViewOf(loading: bool, ps: seq<Product>, cats: seq<Category>): View
  {
    if loading then Spinner
    else Summary(|ps|, |cats|, TotalValue(ps), AveragePrice(ps), RecentRows(ps, cats))
  }

  /** `data || []` for a response that may be absent. */
  function OrEmpty<T>(data: Option<seq<T>>): (r: seq<T>)
    ensures data.None? ==> r == []
    ensures data.Some? ==> r == data.value
  {
    if data.Some? then data.value else []
  }

  datatype DashboardState = DashboardState(products: seq<Product>, categories: seq<Category>, loading: bool)

  class DashboardScreen {
    var products: seq<Product>
    var categories: seq<Category>
    var loading: bool

    function State(): DashboardState
      reads this
    {
      DashboardState(products, categories, loading)
    }

    function View(): View
      reads this
    {
      ViewOf(loading, products, categories)
    }

    constructor ()
      ensures State() == DashboardState([], [], true)
      ensures View() == Spinner
    {
      products, categories, loading := [], [], true;
    }

    /**
     * The authentication effect. A visitor is sent to `/login` and the spinner stays. Otherwise
     * both lists are requested together; when both arrive an absent one becomes empty, when
     * either fails both lists stay; loading ends either way.
     */
    method Mount(isAuthenticated: bool, result: Outcome<(Option<seq<Product>>, Option<seq<Category>>)>)
      returns (calls: seq<ServiceCall>, navigation: Option<string>)
      modifies this
      ensures !isAuthenticated ==> calls == [] && navigation == Some("/login") && State() == old(State())
      ensures isAuthenticated ==>
                && calls == [ProductGet, CategoryGet] && navigation == None
                && State() == (if result.Resolved?
                               then DashboardState(OrEmpty(result.value.0), OrEmpty(result.value.1), false)
                               else old(State()).(loading := false))
      ensures isAuthenticated ==> View().Summary?
    {
      calls, navigation := [], None;
      if !isAuthenticated {
        navigation := Some("/login");
        return;
      }
      calls := [ProductGet, CategoryGet];
      if result.Resolved? {
        products := OrEmpty(result.value.0);
        categories := OrEmpty(result.value.1);
      }
      loading := false;
    }
  }
}
