/** The tag-dispatch bridge (components/consent/utils/gtag.ts).

    The browser's global `window` is a `Window` object holding a map from
    property names to slots. `GtagFn` looks up the dispatch function under
    its name and, when nothing truthy is there, installs a fresh
    `GtagFunction` that appends each call's argument list to a named queue
    (the data layer), creating the queue on first use. */
module Gtag {
  import opened Maybe

  /** One argument of a dispatch call: a string, a number or an object literal. */
  datatype Arg = Str(s: string) | Num(n: int) | Obj(fields: map<string, Arg>)

  /** The value held under one property name of the global namespace. */
  datatype Slot =
    | Fn(f: GtagFunction)          // a dispatch function installed by GtagFn
    | Queue(entries: seq<seq<Arg>>) // an array of queued argument lists
    | Other(truthy: bool)          // any other value, e.g. a library's own function

  /** JavaScript truthiness of a slot; a missing property is `undefined`, which is falsy.
      Functions and arrays (even empty ones) are truthy. */
  predicate Truthy(m: map<string, Slot>, key: string) {
    key in m && (m[key].Fn? || m[key].Queue? || m[key].truthy)
  }

  /** The property name that `window[name]` reads: an undefined name is the string "undefined". */
  function Key(name: Option<string>): (k: string)
    ensures name.Some? ==> k == name.value
    ensures name.None? ==> k == UndefinedKey
  {
    name.GetOr(UndefinedKey)
  }

  /** The global `undefined` is a read-only property of `window`; assigning
      to it in module (strict-mode) code throws a TypeError. */
  const UndefinedKey: string := "undefined"

  /** One call can queue: the property is falsy and may be assigned an empty
      array, or it already holds an array. */
  predicate Pushable(m: map<string, Slot>, q: string) {
    if Truthy(m, q) then m[q].Queue? else q != UndefinedKey
  }

  /** The entries already queued under `q`, empty when there is no array there. */
  function QueueOf(m: map<string, Slot>, q: string): seq<seq<Arg>> {
    if q in m && m[q].Queue? then m[q].entries else []
  }

  /** The call `(window[q] || (window[q] = [])).push(args)` on a namespace.
      None when `window[q]` is truthy but not an array: pushing then either
      throws (a function has no `push`) or runs code outside this model.
      None also when `window[q]` is falsy but read-only: the assignment throws. */
  function AfterPush(m: map<string, Slot>, q: string, args: seq<Arg>): (r: Option<map<string, Slot>>)
    ensures r.Some? <==> Pushable(m, q)
    ensures r.Some? ==> r.value.Keys == m.Keys + {q}
    ensures r.Some? ==> r.value[q] == Queue(QueueOf(m, q) + [args])
    ensures r.Some? ==> forall k :: k in m && k != q ==> r.value[k] == m[k]
  {
    if !Truthy(m, q) && q == UndefinedKey then None
    else if !Truthy(m, q) then
      assert QueueOf(m, q) + [args] == [args];
      Some(m[q := Queue([args])])
    else if m[q].Queue? then Some(m[q := Queue(m[q].entries + [args])])
    else None
  }

  /** Several calls of the installed function, in order; None once a push fails. */
  function PushAll(m: map<string, Slot>, q: string, calls: seq<seq<Arg>>): (r: Option<map<string, Slot>>)
    ensures r.Some? ==> r.value.Keys == m.Keys + (if calls == [] then {} else {q})
    ensures r.Some? ==> forall k :: k in m && k != q ==> r.value[k] == m[k]
    ensures !Pushable(m, q) ==> r == (if calls == [] then Some(m) else None)
    decreases |calls|
  {
    if calls == [] then Some(m)
    else
      match AfterPush(m, q, calls[0])
      case None => None
      case Some(m') => PushAll(m', q, calls[1..])
  }

  /** Successive calls accumulate in call order after whatever was queued before,
      and no other property changes. */
  lemma {:induction false} PushAllAccumulates(m: map<string, Slot>, q: string, calls: seq<seq<Arg>>)
    requires Pushable(m, q)
    ensures PushAll(m, q, calls).Some?
    ensures calls != [] ==> PushAll(m, q, calls).value == m[q := Queue(QueueOf(m, q) + calls)]
    decreases |calls|
  {
    if calls != [] {
      var m' := AfterPush(m, q, calls[0]).value;
      PushAllAccumulates(m', q, calls[1..]);
      if calls[1..] != [] {
        assert QueueOf(m', q) + calls[1..] == QueueOf(m, q) + calls;
        assert m'[q := Queue(QueueOf(m', q) + calls[1..])] == m[q := Queue(QueueOf(m, q) + calls)];
      } else {
        assert calls == [calls[0]];
        assert m' == m[q := Queue(QueueOf(m, q) + calls)];
      }
    }
  }

  /** The namespace, i.e. the browser's `window`. */
  class Window {
    var slots: map<string, Slot>

    constructor (initial: map<string, Slot>)
      ensures slots == initial
    {
      slots := initial;
    }
  }

  /** The function `GtagFn` installs; it captures the queue name it was created with. */
  class GtagFunction {
    const window: Window
    const queueName: string

    constructor (w: Window, q: string)
      ensures window == w && queueName == q
    {
      window := w;
      queueName := q;
    }

    /** Calling the installed function with argument list `args`. */
    method Call(args: seq<Arg>) returns (queued: bool)
      modifies window
      ensures queued == AfterPush(old(window.slots), queueName, args).Some?
      ensures queued ==> window.slots == AfterPush(old(window.slots), queueName, args).value
      ensures !queued ==> window.slots == old(window.slots)
    {
      var q := queueName;
      if !Truthy(window.slots, q) {
        if q == UndefinedKey {
          return false;
        }
        window.slots := window.slots[q := Queue([])];
      }
      match window.slots[q]
      case Queue(entries) =>
        window.slots := window.slots[q := Queue(entries + [args])];
        queued := true;
      case _ =>
        queued := false;
    }
  }

  /** `gtagFn(dataLayerName, gtagName)`: the truthy value already under the
      function name, or else a new function installed there and returned.
      None when the install assigns to the read-only `undefined` and throws. */
  method GtagFn(w: Window, dataLayerName: Option<string>, gtagName: Option<string>) returns (r: Option<Slot>)
    modifies w
    ensures Truthy(old(w.slots), Key(gtagName)) ==> r == Some(old(w.slots)[Key(gtagName)]) && w.slots == old(w.slots)
    ensures !Truthy(old(w.slots), Key(gtagName)) && Key(gtagName) == UndefinedKey ==>
      r == None && w.slots == old(w.slots)
    ensures !Truthy(old(w.slots), Key(gtagName)) && Key(gtagName) != UndefinedKey ==>
      && r.Some? && r.value.Fn? && fresh(r.value.f)
      && r.value.f.window == w && r.value.f.queueName == Key(dataLayerName)
      && w.slots == old(w.slots)[Key(gtagName) := r.value]
    ensures r.Some? ==> Truthy(w.slots, Key(gtagName)) && w.slots[Key(gtagName)] == r.value
  {
    var g := Key(gtagName);
    if Truthy(w.slots, g) {
      r := Some(w.slots[g]);
    } else if g == UndefinedKey {
      r := None;
    } else {
      var f := new GtagFunction(w, Key(dataLayerName));
      r := Some(Fn(f));
      w.slots := w.slots[g := Fn(f)];
    }
  }

  /** With the names unset: installing under an undefined function name throws,
      and a function installed for an undefined queue name throws when called. */
  method UndefinedNamesThrow(w: Window, args: seq<Arg>) returns (install: Option<Slot>, queued: bool)
    requires w.slots == map[]
    modifies w
    ensures install.Some? && install.value.Fn? && install.value.f.window == w
    ensures !queued && w.slots == map["gtag" := install.value]
  {
    var unnamed := GtagFn(w, Some("dataLayer"), None);
    assert unnamed == None && w.slots == map[];
    install := GtagFn(w, None, Some("gtag"));
    queued := install.value.f.Call(args);
  }

  /** Installing twice under one function name returns the first function the
      second time, which still pushes to the queue named at the first call. */
  method InstallTwice(w: Window, g: string, firstQueue: string, secondQueue: string)
    returns (first: Option<Slot>, second: Option<Slot>)
    requires !Truthy(w.slots, g) && g != UndefinedKey
    modifies w
    ensures first.Some? && first.value.Fn? && second == first && first.value.f.queueName == firstQueue
    ensures w.slots == old(w.slots)[g := first.value]
  {
    first := GtagFn(w, Some(firstQueue), Some(g));
    second := GtagFn(w, Some(secondQueue), Some(g));
  }

  /** The consent-mode example: two calls on a fresh data layer queue exactly those two argument lists. */
  method QueueTwoCalls(w: Window) returns (dispatch: Slot)
    requires w.slots == map[]
    modifies w
    ensures dispatch.Fn? && dispatch.f.window == w
    ensures w.slots == map[
      "gtag" := dispatch,
      "dataLayer" := Queue([
        [Str("consent"), Str("update"), Obj(map["a" := Num(1)])],
        [Str("event"), Str("click")]])]
  {
    var installed := GtagFn(w, Some("dataLayer"), Some("gtag"));
    dispatch := installed.value;
    var first := [Str("consent"), Str("update"), Obj(map["a" := Num(1)])];
    var second := [Str("event"), Str("click")];
    var ok1 := dispatch.f.Call(first);
    assert ok1 && w.slots == map["gtag" := dispatch, "dataLayer" := Queue([first])];
    assert [first] + [second] == [first, second];
    var ok2 := dispatch.f.Call(second);
    assert ok2 && w.slots == map["gtag" := dispatch, "dataLayer" := Queue([first, second])];
  }
}
