/**
 * `LxmlSelectorList`: a list of selectors (and caller-supplied strings) that
 * forwards each selector operation to its elements. Every method is a list
 * comprehension over the elements, optionally followed by scrapy's `flatten`;
 * here the comprehension is `MapItems` and the flattening `Concat`. Since a
 * selector is not iterable and the strings are kept whole, `flatten` removes
 * exactly one level of nesting.
 */
module LxmlSelectorList {
  import opened Lxml
  import opened LxmlSelector

  /** One step of a comprehension: the selector case or the non-selector case. */
  function Apply<T>(item: Item, onSel: Selector -> Result<T>, onRaw: string -> Result<T>): Result<T> {
    match item
    case Sel(s) => onSel(s)
    case Raw(x) => onRaw(x)
  }

  /**
   * `[f(x) for x in self]`, evaluated left to right: the first element whose
   * step raises ends it with that exception.
   */
  function MapItems<T>(items: seq<Item>, onSel: Selector -> Result<T>, onRaw: string -> Result<T>): (r: Result<seq<T>>)
    ensures r.Ok? <==> forall i :: 0 <= i < |items| ==> Apply(items[i], onSel, onRaw).Ok?
    ensures r.Ok? ==> |r.value| == |items|
    ensures r.Ok? ==> forall i :: 0 <= i < |items| ==> Apply(items[i], onSel, onRaw) == Ok(r.value[i])
    ensures r.Err? ==> exists i :: 0 <= i < |items| && Apply(items[i], onSel, onRaw) == Err(r.error)
    decreases |items|
  {
    if items == [] then Ok([])
    else
      match Apply(items[0], onSel, onRaw)
      case Err(e) => Err(e)
      case Ok(x) =>
        assert forall i :: 1 <= i < |items| ==> items[1..][i - 1] == items[i];
        match MapItems(items[1..], onSel, onRaw)
        case Err(e) => Err(e)
        case Ok(xs) => Ok([x] + xs)
  }

  /** scrapy's `flatten` on a list of lists: the parts concatenated in order. */
  function Concat<T>(parts: seq<seq<T>>): seq<T> {
    if parts == [] then [] else parts[0] + Concat(parts[1..])
  }

  /** `flatten([f(x) for x in self])`. */
  function FlatMapItems<T>(items: seq<Item>, onSel: Selector -> Result<seq<T>>, onRaw: string -> Result<seq<T>>): Result<seq<T>> {
    match MapItems(items, onSel, onRaw)
    case Err(e) => Err(e)
    case Ok(parts) => Ok(Concat(parts))
  }

  /** Sequencing of two comprehensions over consecutive pieces of a list. */
  function Then<T>(a: Result<seq<T>>, b: Result<seq<T>>): Result<seq<T>> {
    match a
    case Err(e) => Err(e)
    case Ok(x) =>
      match b
      case Err(e) => Err(e)
      case Ok(y) => Ok(x + y)
  }

  function Items(r: Result<SelectorList>): Result<seq<Item>> {
    match r
    case Err(e) => Err(e)
    case Ok(l) => Ok(l.items)
  }

  function AsList(r: Result<seq<Item>>): Result<SelectorList> {
    match r
    case Err(e) => Err(e)
    case Ok(items) => Ok(SelectorList(items))
  }

  // ---------------------------------------------------------------------
  // The list's methods
  // ---------------------------------------------------------------------

  /**
   * `__getslice__(i, j)` with Python 2's simple-slice rules: a negative bound
   * has the length added, then both bounds are clamped to the list.
   */
  function SliceBound(k: int, n: nat): (b: nat)
    ensures b <= n
  {
    if k < 0 then (if k + n < 0 then 0 else k + n) else if k > n then n else k
  }

  function Slice(l: SelectorList, i: int, j: int): (r: SelectorList)
    ensures var lo, hi := SliceBound(i, |l.items|), SliceBound(j, |l.items|);
            |r.items| == (if lo <= hi then hi - lo else 0) &&
            forall k :: 0 <= k < |r.items| ==> r.items[k] == l.items[lo + k]
    ensures 0 <= i <= j <= |l.items| ==> r.items == l.items[i..j]
  {
    var lo, hi := SliceBound(i, |l.items|), SliceBound(j, |l.items|);
    SelectorList(if lo <= hi then l.items[lo..hi] else [])
  }

  /** `xpath(q)`: every element's own query result, concatenated; a string element has no `xpath`. */
  function Xpath(lx: Engine, l: SelectorList, q: string): (r: Result<SelectorList>)
    ensures r.Ok? <==> forall i :: 0 <= i < |l.items| ==>
              l.items[i].Sel? && LxmlSelector.Xpath(lx, l.items[i].sel, q).Ok?
    ensures l.items == [] ==> r == Ok(SelectorList([]))
  {
    AsList(FlatMapItems(l.items, s => Items(LxmlSelector.Xpath(lx, s, q)), x => Err(AttributeError("xpath"))))
  }

  /** `css(c)`: as `xpath`, with each element's CSS query. */
  function Css(lx: Engine, l: SelectorList, c: string): (r: Result<SelectorList>)
    ensures r.Ok? <==> forall i :: 0 <= i < |l.items| ==>
              l.items[i].Sel? && LxmlSelector.Css(lx, l.items[i].sel, c).Ok?
    ensures l.items == [] ==> r == Ok(SelectorList([]))
  {
    AsList(FlatMapItems(l.items, s => Items(LxmlSelector.Css(lx, s, c)), x => Err(AttributeError("css"))))
  }

  /** `re(regex)`: every element's matches, concatenated into a plain list of strings. */
  function Re(lx: Engine, l: SelectorList, regex: string): (r: Result<seq<string>>)
    ensures r.Ok? <==> forall i :: 0 <= i < |l.items| ==>
              l.items[i].Sel? && LxmlSelector.Re(lx, l.items[i].sel, regex).Ok?
    ensures l.items == [] ==> r == Ok([])
  {
    FlatMapItems(l.items, s => LxmlSelector.Re(lx, s, regex), x => Err(AttributeError("re")))
  }

  /** `attrib(name)`: each selector replaced by its attribute selector; strings kept. */
  function Attrib(lx: Engine, l: SelectorList, name: string): (r: Result<SelectorList>)
    ensures r.Ok? <==> forall i :: 0 <= i < |l.items| ==>
              l.items[i].Sel? ==> LxmlSelector.Attrib(lx, l.items[i].sel, name).Ok?
    ensures r.Ok? ==> |r.value.items| == |l.items|
    ensures r.Ok? ==> forall i :: 0 <= i < |l.items| ==>
              if l.items[i].Sel? then r.value.items[i] == Sel(LxmlSelector.Attrib(lx, l.items[i].sel, name).value)
              else r.value.items[i] == l.items[i]
  {
    AsList(MapItems(l.items, s => AttribItem(lx, s, name), x => Ok(Raw(x))))
  }

  function AttribItem(lx: Engine, s: Selector, name: string): Result<Item> {
    match LxmlSelector.Attrib(lx, s, name)
    case Err(e) => Err(e)
    case Ok(a) => Ok(Sel(a))
  }

  /** `text()`: each selector's child text nodes, strings kept, all concatenated. */
  function Text(lx: Engine, l: SelectorList): (r: Result<SelectorList>)
    ensures r.Ok? <==> forall i :: 0 <= i < |l.items| ==>
              l.items[i].Sel? ==> LxmlSelector.Text(lx, l.items[i].sel).Ok?
  {
    AsList(FlatMapItems(l.items, s => Items(LxmlSelector.Text(lx, s)), x => Ok([Raw(x)])))
  }

  /** `extract()`: a plain list holding each selector's extraction, strings kept. */
  function Extract(lx: Engine, l: SelectorList): (r: Result<seq<string>>)
    ensures r.Ok? <==> forall i :: 0 <= i < |l.items| ==> l.items[i].Sel? ==> l.items[i].sel.node.Set?
    ensures r.Ok? ==> |r.value| == |l.items|
    ensures r.Ok? ==> forall i :: 0 <= i < |l.items| ==>
              if l.items[i].Sel? then Ok(r.value[i]) == LxmlSelector.Extract(lx, l.items[i].sel)
              else r.value[i] == l.items[i].raw
    ensures r.Err? ==> r.error == AttributeError("xmlNode")
  {
    MapItems(l.items, s => LxmlSelector.Extract(lx, s), x => Ok(x))
  }

  /**
   * `extract_unquoted()`: as `extract`, with the selector-level
   * `extract_unquoted`, which raises for every selector.
   */
  function ExtractUnquoted(l: SelectorList): (r: Result<seq<string>>)
    ensures r.Ok? <==> forall i :: 0 <= i < |l.items| ==> l.items[i].Raw?
    ensures r.Ok? ==> |r.value| == |l.items| && forall i :: 0 <= i < |l.items| ==> r.value[i] == l.items[i].raw
    ensures r.Err? ==> r.error == AttributeError("select")
  {
    MapItems(l.items, s => LxmlSelector.ExtractUnquoted(s), x => Ok(x))
  }

  // ---------------------------------------------------------------------
  // Flatten-and-forward laws
  // ---------------------------------------------------------------------

  lemma {:induction false} ConcatAppend<T>(a: seq<seq<T>>, b: seq<seq<T>>)
    ensures Concat(a + b) == Concat(a) + Concat(b)
  {
    if a == [] {
      assert a + b == b;
    } else {
      assert (a + b)[1..] == a[1..] + b;
      ConcatAppend(a[1..], b);
    }
  }

  /** A property every part's elements have is had by every element of the concatenation. */
  lemma {:induction false} ConcatAll<T>(parts: seq<seq<T>>, p: T -> bool)
    requires forall i :: 0 <= i < |parts| ==> forall k :: 0 <= k < |parts[i]| ==> p(parts[i][k])
    ensures forall k :: 0 <= k < |Concat(parts)| ==> p(Concat(parts)[k])
  {
    if parts != [] {
      ConcatAll(parts[1..], p);
      assert Concat(parts) == parts[0] + Concat(parts[1..]);
    }
  }

  /** A comprehension over `a + b` runs over `a`, then over `b`; the first exception wins. */
  lemma {:induction false} MapItemsAppend<T>(a: seq<Item>, b: seq<Item>, onSel: Selector -> Result<T>, onRaw: string -> Result<T>)
    ensures MapItems(a + b, onSel, onRaw) == Then(MapItems(a, onSel, onRaw), MapItems(b, onSel, onRaw))
  {
    if a == [] {
      assert a + b == b;
      var rb := MapItems(b, onSel, onRaw);
      if rb.Ok? {
        assert [] + rb.value == rb.value;
      }
    } else {
      assert (a + b)[0] == a[0];
      assert (a + b)[1..] == a[1..] + b;
      MapItemsAppend(a[1..], b, onSel, onRaw);
      var head := Apply(a[0], onSel, onRaw);
      if head.Ok? {
        var ta, rb := MapItems(a[1..], onSel, onRaw), MapItems(b, onSel, onRaw);
        if ta.Ok? && rb.Ok? {
          assert [head.value] + (ta.value + rb.value) == ([head.value] + ta.value) + rb.value;
        }
      }
    }
  }

  /** Flattening a comprehension over `a + b` gives `a`'s part, then `b`'s. */
  lemma FlatMapItemsAppend<T>(a: seq<Item>, b: seq<Item>, onSel: Selector -> Result<seq<T>>, onRaw: string -> Result<seq<T>>)
    ensures FlatMapItems(a + b, onSel, onRaw) == Then(FlatMapItems(a, onSel, onRaw), FlatMapItems(b, onSel, onRaw))
  {
    MapItemsAppend(a, b, onSel, onRaw);
    var ra, rb := MapItems(a, onSel, onRaw), MapItems(b, onSel, onRaw);
    if ra.Ok? && rb.Ok? {
      ConcatAppend(ra.value, rb.value);
    }
  }

  /** Flattening a one-element comprehension gives that element's own list. */
  lemma FlatMapItemsSingle<T>(it: Item, onSel: Selector -> Result<seq<T>>, onRaw: string -> Result<seq<T>>)
    ensures FlatMapItems([it], onSel, onRaw) == Apply(it, onSel, onRaw)
  {
    var r := Apply(it, onSel, onRaw);
    if r.Ok? {
      assert [it][0] == it && [it][1..] == [];
      assert MapItems([it][1..], onSel, onRaw) == Ok([]);
      assert MapItems([it], onSel, onRaw) == Ok([r.value] + []);
      assert [r.value][1..] == [];
      assert Concat([r.value]) == r.value + Concat([]) == r.value;
    }
  }

  /** The list's `xpath` over `a + b` is its `xpath` over `a`, followed by its `xpath` over `b`. */
  lemma XpathAppend(lx: Engine, a: SelectorList, b: SelectorList, q: string)
    ensures Items(Xpath(lx, SelectorList(a.items + b.items), q)) == Then(Items(Xpath(lx, a, q)), Items(Xpath(lx, b, q)))
  {
    FlatMapItemsAppend(a.items, b.items, s => Items(LxmlSelector.Xpath(lx, s, q)), x => Err(AttributeError("xpath")));
  }

  /** On a one-selector list, the list's `xpath` is that selector's `xpath`. */
  lemma XpathSingle(lx: Engine, s: Selector, q: string)
    ensures Xpath(lx, SelectorList([Sel(s)]), q) == LxmlSelector.Xpath(lx, s, q)
  {
    FlatMapItemsSingle(Sel(s), s => Items(LxmlSelector.Xpath(lx, s, q)), x => Err(AttributeError("xpath")));
  }

  /** Every selector the list's `xpath` yields records the query itself as its expression. */
  lemma XpathTrail(lx: Engine, l: SelectorList, q: string)
    ensures var r := Xpath(lx, l, q);
            r.Ok? ==> forall k :: 0 <= k < |r.value.items| ==> r.value.items[k].Sel? && r.value.items[k].sel.expr == Some(q)
  {
    var onSel := s => Items(LxmlSelector.Xpath(lx, s, q));
    var onRaw := x => Err(AttributeError("xpath"));
    var m := MapItems(l.items, onSel, onRaw);
    if m.Ok? {
      ConcatAll(m.value, (it: Item) => it.Sel? && it.sel.expr == Some(q));
    }
  }

  lemma CssAppend(lx: Engine, a: SelectorList, b: SelectorList, c: string)
    ensures Items(Css(lx, SelectorList(a.items + b.items), c)) == Then(Items(Css(lx, a, c)), Items(Css(lx, b, c)))
  {
    FlatMapItemsAppend(a.items, b.items, s => Items(LxmlSelector.Css(lx, s, c)), x => Err(AttributeError("css")));
  }

  lemma CssSingle(lx: Engine, s: Selector, c: string)
    ensures Css(lx, SelectorList([Sel(s)]), c) == LxmlSelector.Css(lx, s, c)
  {
    FlatMapItemsSingle(Sel(s), s => Items(LxmlSelector.Css(lx, s, c)), x => Err(AttributeError("css")));
  }

  lemma CssTrail(lx: Engine, l: SelectorList, c: string)
    ensures var r := Css(lx, l, c);
            r.Ok? ==> forall k :: 0 <= k < |r.value.items| ==> r.value.items[k].Sel? && r.value.items[k].sel.expr == Some(c)
  {
    var onSel := s => Items(LxmlSelector.Css(lx, s, c));
    var onRaw := x => Err(AttributeError("css"));
    var m := MapItems(l.items, onSel, onRaw);
    if m.Ok? {
      ConcatAll(m.value, (it: Item) => it.Sel? && it.sel.expr == Some(c));
    }
  }

  lemma ReAppend(lx: Engine, a: SelectorList, b: SelectorList, regex: string)
    ensures Re(lx, SelectorList(a.items + b.items), regex) == Then(Re(lx, a, regex), Re(lx, b, regex))
  {
    FlatMapItemsAppend(a.items, b.items, s => LxmlSelector.Re(lx, s, regex), x => Err(AttributeError("re")));
  }

  lemma ReSingle(lx: Engine, s: Selector, regex: string)
    ensures Re(lx, SelectorList([Sel(s)]), regex) == LxmlSelector.Re(lx, s, regex)
  {
    FlatMapItemsSingle(Sel(s), s => LxmlSelector.Re(lx, s, regex), x => Err(AttributeError("re")));
  }

  lemma TextAppend(lx: Engine, a: SelectorList, b: SelectorList)
    ensures Items(Text(lx, SelectorList(a.items + b.items))) == Then(Items(Text(lx, a)), Items(Text(lx, b)))
  {
    FlatMapItemsAppend(a.items, b.items, s => Items(LxmlSelector.Text(lx, s)), x => Ok([Raw(x)]));
  }

  /** The list's `text()` keeps a string element as a one-element run of the result. */
  lemma TextSingle(lx: Engine, it: Item)
    ensures it.Sel? ==> Text(lx, SelectorList([it])) == LxmlSelector.Text(lx, it.sel)
    ensures it.Raw? ==> Text(lx, SelectorList([it])) == Ok(SelectorList([it]))
  {
    FlatMapItemsSingle(it, s => Items(LxmlSelector.Text(lx, s)), x => Ok([Raw(x)]));
  }
}
