/**
 The product list page: the search filter over the fetched catalogue, the
 eight-per-page slicing, the page count, the two display conditions of the
 pager, and the two pieces of page state (`busqueda`, `paginaActual`) with the
 handlers that change them.
 */
module Products {
  import opened Text
  import opened Wrappers

  /** One catalogue record. `name` is the record's `producto` field and
      `category` its `categoria` field; either may be absent. */
  datatype Product = Product(id: string, name: Option<string>, category: Option<string>)

  /** `productosPorPagina`. */
  const PageSize: nat := 8

  function Min(a: int, b: int): int { if a <= b then a else b }

  function Max(a: int, b: int): int { if a <= b then b else a }

  // ---------------------------------------------------------------------------
  // Filter

  /** The term products are compared against: the search box text, trimmed and
      lower-cased. It is empty exactly when the box holds only whitespace. */
  function SearchKey(busqueda: string): (key: string)
    ensures key == "" <==> forall i :: 0 <= i < |busqueda| ==> IsSpace(busqueda[i])
    ensures forall i :: 0 <= i < |key| ==> !IsUpper(key[i])
  {
    TrimEmptyIffBlank(busqueda);
    Lower(Trim(busqueda))
  }

  /** The text a field is compared with: lower-cased when present, "" when absent. */
  function FieldText(f: Option<string>): string {
    match f
    case Some(s) => Lower(s)
    case None => ""
  }

  /** Whether the filter keeps `p` for the normalised term `key`. */
  predicate Kept(p: Product, key: string) {
    key == "" || Includes(FieldText(p.name), key) || Includes(FieldText(p.category), key)
  }

  /** `r` is obtained from `s` by deleting elements, keeping the order of the rest. */
  ghost predicate IsSubsequence<T>(r: seq<T>, s: seq<T>) {
    if s == [] then r == []
    else (r != [] && r[0] == s[0] && IsSubsequence(r[1..], s[1..])) || IsSubsequence(r, s[1..])
  }

  /** `products.filter(...)`: the kept products, in their original order, each
      as many times as it occurs in `products`. */
  function Filter(products: seq<Product>, key: string): (r: seq<Product>)
    ensures |r| <= |products|
    ensures IsSubsequence(r, products)
    ensures forall i :: 0 <= i < |r| ==> Kept(r[i], key)
    ensures forall p :: multiset(r)[p] == if Kept(p, key) then multiset(products)[p] else 0
  {
    if products == [] then []
    else
      assert products == [products[0]] + products[1..];
      if Kept(products[0], key) then [products[0]] + Filter(products[1..], key)
      else Filter(products[1..], key)
  }

  /** `productosFiltrados`. */
  function Filtered(products: seq<Product>, busqueda: string): seq<Product> {
    Filter(products, SearchKey(busqueda))
  }

  /** A subsequence is no longer than the sequence and draws its elements from it. */
  lemma {:induction false} SubsequenceBounded<T>(r: seq<T>, s: seq<T>)
    requires IsSubsequence(r, s)
    ensures |r| <= |s|
    ensures forall x :: x in r ==> x in s
  {
    if s != [] {
      if r != [] && r[0] == s[0] && IsSubsequence(r[1..], s[1..]) {
        SubsequenceBounded(r[1..], s[1..]);
        assert r == [r[0]] + r[1..];
      } else {
        SubsequenceBounded(r, s[1..]);
      }
    }
  }

  /** The filtered list is an order-preserving subsequence of the catalogue, so
      it is no longer than the catalogue. */
  lemma FilteredIsSubsequence(products: seq<Product>, busqueda: string)
    ensures IsSubsequence(Filtered(products, busqueda), products)
    ensures |Filtered(products, busqueda)| <= |products|
    ensures forall p :: p in Filtered(products, busqueda) ==> p in products
  {
  }

  /** When every product is kept, the filter returns the catalogue unchanged. */
  lemma {:induction false} FilterKeepsAll(products: seq<Product>, key: string)
    requires forall i :: 0 <= i < |products| ==> Kept(products[i], key)
    ensures Filter(products, key) == products
  {
    if products != [] {
      FilterKeepsAll(products[1..], key);
      assert products == [products[0]] + products[1..];
    }
  }

  /** An empty or whitespace-only search box shows the whole catalogue. */
  lemma BlankSearchKeepsAll(products: seq<Product>, busqueda: string)
    requires forall i :: 0 <= i < |busqueda| ==> IsSpace(busqueda[i])
    ensures Filtered(products, busqueda) == products
  {
    FilterKeepsAll(products, SearchKey(busqueda));
  }

  /** For a non-blank term, a catalogue product is shown exactly when the term
      occurs in its lower-cased name or lower-cased category. */
  lemma ShownIffTermOccurs(products: seq<Product>, busqueda: string, p: Product)
    requires SearchKey(busqueda) != ""
    ensures p in Filtered(products, busqueda) <==>
              p in products &&
              (Occurs(FieldText(p.name), SearchKey(busqueda)) ||
               Occurs(FieldText(p.category), SearchKey(busqueda)))
  {
    var key := SearchKey(busqueda);
    IncludesIffOccurs(FieldText(p.name), key);
    IncludesIffOccurs(FieldText(p.category), key);
    assert p in Filtered(products, busqueda) <==> multiset(Filtered(products, busqueda))[p] > 0;
  }

  /** An absent name or category never matches a non-blank term. */
  lemma AbsentFieldNeverMatches(f: Option<string>, key: string)
    requires f.None? && key != ""
    ensures !Occurs(FieldText(f), key)
  {
  }

  // ---------------------------------------------------------------------------
  // Pages

  /** `Array.prototype.slice(start, end)`: a negative position counts from the
      end, positions are clamped to the length, an empty range gives []. */
  function Slice<T>(s: seq<T>, start: int, end: int): (r: seq<T>)
    ensures start <= end ==> |r| <= end - start
    ensures 0 <= start && 0 <= end ==>
              r == if start < Min(end, |s|) then s[start..Min(end, |s|)] else []
    ensures end == 0 ==> r == []
  {
    var from := if start < 0 then Max(|s| + start, 0) else Min(start, |s|);
    var to := if end < 0 then Max(|s| + end, 0) else Min(end, |s|);
    if from < to then s[from..to] else []
  }

  /** `productosActuales` for page `page`: the slice between
      `indicePrimerProducto` and `indiceUltimoProducto`. */
  function PageItems<T>(filtered: seq<T>, page: int): (r: seq<T>)
    ensures |r| <= PageSize
    ensures page >= 1 ==>
              r == if (page - 1) * PageSize < |filtered|
                   then filtered[(page - 1) * PageSize..Min(page * PageSize, |filtered|)]
                   else []
    ensures page == 0 ==> r == []
  {
    Slice(filtered, page * PageSize - PageSize, page * PageSize)
  }

  /** `totalPaginas`: the least number of pages of eight that hold `n` items. */
  function TotalPages(n: nat): (t: nat)
    ensures n <= t * PageSize
    ensures t > 0 ==> (t - 1) * PageSize < n
    ensures t == 0 <==> n == 0
  {
    (n + PageSize - 1) / PageSize
  }

  /** From page 1 on, a page has items exactly when it is one of the
      `totalPaginas` pages; every page but the last is full. */
  lemma PageNonEmptyIffInRange<T>(filtered: seq<T>, page: int)
    requires page >= 1
    ensures PageItems(filtered, page) != [] <==> page <= TotalPages(|filtered|)
    ensures page < TotalPages(|filtered|) ==> |PageItems(filtered, page)| == PageSize
  {
  }

  /** Pages 1 to `k`, laid end to end. */
  function ConcatPages<T>(filtered: seq<T>, k: nat): seq<T> {
    if k == 0 then [] else ConcatPages(filtered, k - 1) + PageItems(filtered, k)
  }

  /** The first `k` pages are the first `8 * k` items (or all of them). */
  lemma {:induction false} ConcatPagesIsPrefix<T>(filtered: seq<T>, k: nat)
    requires k <= TotalPages(|filtered|)
    ensures ConcatPages(filtered, k) == filtered[..Min(k * PageSize, |filtered|)]
  {
    if k > 0 {
      ConcatPagesIsPrefix(filtered, k - 1);
      var lo := (k - 1) * PageSize;
      var hi := Min(k * PageSize, |filtered|);
      assert filtered[..hi] == filtered[..lo] + filtered[lo..hi];
    }
  }

  /** Pages 1 to `totalPaginas`, in order, give back the filtered list. */
  lemma PagesReassemble<T>(filtered: seq<T>)
    ensures ConcatPages(filtered, TotalPages(|filtered|)) == filtered
  {
    ConcatPagesIsPrefix(filtered, TotalPages(|filtered|));
  }

  /** Ten products and no search: page 1 shows eight, page 2 the other two,
      page 3 nothing, and there are two pages. */
  lemma TenProductsTwoPages<T>(filtered: seq<T>)
    requires |filtered| == 10
    ensures TotalPages(|filtered|) == 2
    ensures PageItems(filtered, 1) == filtered[..8]
    ensures PageItems(filtered, 2) == filtered[8..]
    ensures PageItems(filtered, 3) == []
  {
  }

  // ---------------------------------------------------------------------------
  // Display conditions

  /** The pager is rendered only when there is more than one page's worth. */
  predicate ShowsPager<T>(filtered: seq<T>) {
    |filtered| > PageSize
  }

  /** The "page p of N" line is rendered only when something is shown. */
  predicate ShowsPageInfo<T>(filtered: seq<T>) {
    |filtered| > 0
  }

  /** The page numbers of the pager's buttons, `index + 1` for each index. */
  function PagerButtons<T>(filtered: seq<T>): seq<int> {
    seq(TotalPages(|filtered|), i => i + 1)
  }

  /** The pager appears exactly when there are at least two pages, the page
      line exactly when there is at least one; the buttons are the pages 1 to
      `totalPaginas`, and every one of them leads to a page that shows products. */
  lemma DisplayConditions<T>(filtered: seq<T>)
    ensures ShowsPager(filtered) <==> TotalPages(|filtered|) >= 2
    ensures ShowsPageInfo(filtered) <==> TotalPages(|filtered|) >= 1
    ensures forall b :: b in PagerButtons(filtered) <==> 1 <= b <= TotalPages(|filtered|)
    ensures forall b :: b in PagerButtons(filtered) ==> PageItems(filtered, b) != []
  {
    var buttons := PagerButtons(filtered);
    forall b | 1 <= b <= TotalPages(|filtered|) ensures b in buttons {
      assert buttons[b - 1] == b;
    }
    forall b | b in PagerButtons(filtered) ensures PageItems(filtered, b) != [] {
      PageNonEmptyIffInRange(filtered, b);
    }
  }

  // ---------------------------------------------------------------------------
  // Page state

  /** The state of the product list once the catalogue has been fetched: the
      search box text (`busqueda`) and the current page (`paginaActual`). */
  class ProductList {
    const products: seq<Product>
    var busqueda: string
    var paginaActual: int

    /** The list as first rendered: empty search box, page 1. */
    constructor (products: seq<Product>)
      ensures this.products == products
      ensures busqueda == "" && paginaActual == 1
      ensures Shown() == products
    {
      this.products := products;
      busqueda := "";
      paginaActual := 1;
      new;
      BlankSearchKeepsAll(products, "");
    }

    /** `productosFiltrados`. */
    function Shown(): seq<Product>
      reads this
    {
      Filtered(products, busqueda)
    }

    /** `productosActuales`. */
    function CurrentItems(): seq<Product>
      reads this
    {
      PageItems(Shown(), paginaActual)
    }

    /** `totalPaginas`. */
    function PageCount(): nat
      reads this
    {
      TotalPages(|Shown()|)
    }

    /** `manejarBusqueda`: store the typed text and go back to page 1, which
        shows the first (up to) eight matches of the new text. */
    method Search(value: string)
      modifies this
      ensures busqueda == value && paginaActual == 1
      ensures CurrentItems() == Shown()[..Min(PageSize, |Shown()|)]
    {
      busqueda := value;
      paginaActual := 1;
    }

    /** `cambiarPagina`: set the page, with no check against the page count;
        a page past the last shows nothing. */
    method ChangePage(n: int)
      modifies this
      ensures busqueda == old(busqueda) && paginaActual == n
      ensures n > PageCount() ==> CurrentItems() == []
    {
      paginaActual := n;
    }

    /** The clear button next to the search box: empty the box and keep the
        page, so the whole catalogue is filtered again. */
    method ClearSearch()
      modifies this
      ensures busqueda == "" && paginaActual == old(paginaActual)
      ensures Shown() == products
    {
      busqueda := "";
      BlankSearchKeepsAll(products, busqueda);
    }
  }
}
