/**
 The tab, range and search selection of the dashboard page and its mirror
 in the URL. The selection is read from the URL at load, with the defaults
 `overview`, `today` and the empty search; a tab or range change is written
 to the URL at once, a search change only once typing has paused for 200 ms.

 The debounce timer is modelled by a `pending` flag: typing sets it (and
 restarts the timer), `Settle` is the timer firing.
 */
module Dashboard {
  import opened UrlParams

  const DefaultTab: string := "overview"
  const DefaultRange: string := "today"

  datatype View = View(tab: string, range: string, search: string, params: Params, pending: bool)

  /** `p` holds what writing `value` under `name` leaves there: nothing for
      the empty value, the value itself otherwise. */
  predicate Mirrors(p: Params, name: string, value: string)
  {
    if value == "" then name !in p else name in p && p[name] == value
  }

  /** The URL mirrors the selection: tab and range always, the search once
      no write is pending. */
  predicate Reflects(v: View)
  {
    && Mirrors(v.params, "tab", v.tab)
    && Mirrors(v.params, "range", v.range)
    && (!v.pending ==> Mirrors(v.params, "search", v.search))
  }

  /** The selection read from the URL at load. */
  function InitialSelection(params: Params): (sel: (string, string, string))
    ensures "tab" in params ==> sel.0 == params["tab"]
    ensures "tab" !in params ==> sel.0 == DefaultTab
    ensures "range" in params ==> sel.1 == params["range"]
    ensures "range" !in params ==> sel.1 == DefaultRange
    ensures "search" in params ==> sel.2 == params["search"]
    ensures "search" !in params ==> sel.2 == ""
  {
    (ReadParam(params, "tab", DefaultTab), ReadParam(params, "range", DefaultRange), ReadParam(params, "search", ""))
  }

  /** Mount: the tab and range effects write their values once, the search
      effect starts its timer. */
  function Mount(params: Params): (v: View)
    ensures Reflects(v) && v.pending
    ensures (v.tab, v.range, v.search) == InitialSelection(params)
    ensures forall k :: k != "tab" && k != "range" ==> (k in v.params <==> k in params)
    ensures forall k :: k != "tab" && k != "range" && k in params ==> v.params[k] == params[k]
  {
    var (tab, range, search) := InitialSelection(params);
    View(tab, range, search, WriteParam(WriteParam(params, "tab", tab), "range", range), true)
  }

  /** A tab click. An unchanged tab re-renders nothing and writes nothing. */
  function SelectTab(v: View, t: string): (r: View)
    ensures r.tab == t && r.range == v.range && r.search == v.search && r.pending == v.pending
    ensures ReadParam(r.params, "tab", "") == t || (t == v.tab && r == v)
    ensures forall k :: k != "tab" ==> (k in r.params <==> k in v.params)
    ensures forall k :: k != "tab" && k in v.params ==> r.params[k] == v.params[k]
  {
    if t == v.tab then v else v.(tab := t, params := WriteParam(v.params, "tab", t))
  }

  /** A range choice; the same rule as `SelectTab`. */
  function SelectRange(v: View, x: string): (r: View)
    ensures r.range == x && r.tab == v.tab && r.search == v.search && r.pending == v.pending
    ensures ReadParam(r.params, "range", "") == x || (x == v.range && r == v)
    ensures forall k :: k != "range" ==> (k in r.params <==> k in v.params)
    ensures forall k :: k != "range" && k in v.params ==> r.params[k] == v.params[k]
  {
    if x == v.range then v else v.(range := x, params := WriteParam(v.params, "range", x))
  }

  /** A keystroke in the search box: the state changes, the URL does not. */
  function TypeSearch(v: View, s: string): (r: View)
    ensures r.search == s && r.tab == v.tab && r.range == v.range && r.params == v.params
    ensures r.pending <==> v.pending || s != v.search
  {
    if s == v.search then v else v.(search := s, pending := true)
  }

  /** The debounce timer fires and writes the search in effect at that moment. */
  function Settle(v: View): (r: View)
    ensures !r.pending && r.tab == v.tab && r.range == v.range && r.search == v.search
    ensures v.pending ==> ReadParam(r.params, "search", "") == v.search
    ensures forall k :: k != "search" ==> (k in r.params <==> k in v.params)
    ensures forall k :: k != "search" && k in v.params ==> r.params[k] == v.params[k]
  {
    if v.pending then v.(params := WriteParam(v.params, "search", v.search), pending := false) else v
  }

  /** A burst of keystrokes, each one the whole content of the search box. */
  function TypeAll(v: View, keys: seq<string>): (r: View)
    decreases |keys|
  {
    if keys == [] then v else TypeAll(TypeSearch(v, keys[0]), keys[1..])
  }

  /** While typing the URL is untouched; the state ends on the last keystroke. */
  lemma {:induction false} TypeAllKeepsUrl(v: View, keys: seq<string>)
    ensures TypeAll(v, keys).params == v.params
    ensures TypeAll(v, keys).search == if keys == [] then v.search else keys[|keys| - 1]
    ensures TypeAll(v, keys).tab == v.tab && TypeAll(v, keys).range == v.range
    ensures v.pending ==> TypeAll(v, keys).pending
    decreases |keys|
  {
    if keys != [] {
      TypeAllKeepsUrl(TypeSearch(v, keys[0]), keys[1..]);
      if |keys| > 1 {
        assert keys[1..][|keys[1..]| - 1] == keys[|keys| - 1];
      }
    }
  }

  /** A burst either leaves a write pending, or changed nothing because its
      last keystroke restored the text already in the box. */
  lemma {:induction false} BurstPendingOrIdle(v: View, keys: seq<string>)
    requires keys != []
    ensures TypeAll(v, keys).pending || (TypeAll(v, keys) == v && keys[|keys| - 1] == v.search)
    decreases |keys|
  {
    var v' := TypeSearch(v, keys[0]);
    if |keys| > 1 {
      BurstPendingOrIdle(v', keys[1..]);
      assert keys[1..][|keys[1..]| - 1] == keys[|keys| - 1];
    }
  }

  /** Only the last keystroke of a burst reaches the URL: settling after the
      burst is one write of the final text, whether or not a write was
      pending when the burst began. */
  lemma BurstWritesLast(v: View, keys: seq<string>)
    requires Reflects(v) && keys != []
    ensures Settle(TypeAll(v, keys)).params == WriteParam(v.params, "search", keys[|keys| - 1])
  {
    TypeAllKeepsUrl(v, keys);
    BurstPendingOrIdle(v, keys);
    if !TypeAll(v, keys).pending {
      assert WriteParam(v.params, "search", v.search) == v.params;
    }
  }

  /** Every change keeps the URL mirroring the selection. */
  lemma ReflectsPreserved(v: View, t: string, x: string, s: string)
    requires Reflects(v)
    ensures Reflects(SelectTab(v, t))
    ensures Reflects(SelectRange(v, x))
    ensures Reflects(TypeSearch(v, s))
    ensures Reflects(Settle(v))
  {
  }

  /** Reloading a settled page restores the selection; an empty tab or range
      was deleted from the URL and comes back as its default. */
  lemma ReloadRestores(v: View)
    requires Reflects(v) && !v.pending
    ensures Mount(v.params).tab == if v.tab == "" then DefaultTab else v.tab
    ensures Mount(v.params).range == if v.range == "" then DefaultRange else v.range
    ensures Mount(v.params).search == v.search
  {
  }
}
