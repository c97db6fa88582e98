/**
  Searches over paged listings: by name, for the SNAT IP pool and the tier-0 gateway, and by tags, to recover a
  reference. On a faithful listing each is a linear search of the whole; only the last one ends on any answers.
 */
module Paging {
  import opened Basics
  import Tags
  import Protocol

  /** One answer: the items of a page, the number of all items, and where to go on. */
  datatype Reply<T> = Page(results: seq<T>, resultCount: int, cursor: Option<string>) | Failed

  datatype Scan<T> =
    | Asking(cursor: Option<string>, total: int, count: nat)
    | Hit(item: T)
    | Missed
    | Broken

  function FirstMatch<T>(items: seq<T>, p: T -> bool): Option<T> {
    if items == [] then None else if p(items[0]) then Some(items[0]) else FirstMatch(items[1..], p)
  }

  /** What the dereferenced nil cursor of a last page reads as. */
  const NoCursor := "<invalid Value>"

  /** What a search makes of one answer. The search by tags gives up at an empty page and never loses its cursor;
      the searches by name do neither. */
  function Turn<T>(p: T -> bool, byTags: bool, s: Scan<T>, reply: Reply<T>): Scan<T>
    requires s.Asking?
  {
    if reply.Failed? then Broken
    else if FirstMatch(reply.results, p).Some? then Hit(FirstMatch(reply.results, p).value)
    else
      var total := if s.cursor.None? then reply.resultCount else s.total;
      var count := s.count + |reply.results|;
      if count >= total || (byTags && reply.results == []) then Missed
      else Asking(if byTags then Some(reply.cursor.GetOr(NoCursor)) else reply.cursor, total, count)
  }

  function Start<T>(): Scan<T> {
    Asking(None, 0, 0)
  }

  /** A search over given answers; once they are used up, calls fail. */
  function Search<T>(p: T -> bool, byTags: bool, s: Scan<T>, script: seq<Reply<T>>): Scan<T>
    decreases |script|
  {
    if !s.Asking? then s
    else if script == [] then Broken
    else Search(p, byTags, Turn(p, byTags, s, script[0]), script[1..])
  }

  /** LookupIPPoolIDByName and the tier-0 gateway lookup. */
  method LookupByName<T>(script: seq<Reply<T>>, p: T -> bool) returns (r: Scan<T>)
    ensures r == Search(p, false, Start(), script) && !r.Asking?
  {
    var cursor: Option<string> := None;
    var total: int, count: nat := 0, 0;
    var i := 0;
    while true
      invariant 0 <= i <= |script|
      invariant Search(p, false, Start(), script) == Search(p, false, Asking(cursor, total, count), script[i..])
      decreases |script| - i
    {
      if i == |script| { return Broken; }
      var reply := script[i];
      if reply.Failed? { return Broken; }
      var found := Scanned(reply.results, p);
      if found.Some? { return Hit(found.value); }
      if cursor.None? { total := reply.resultCount; }
      count := count + |reply.results|;
      if count >= total { return Missed; }
      cursor := reply.cursor;
      i := i + 1;
    }
  }

  method Scanned<T>(items: seq<T>, p: T -> bool) returns (r: Option<T>)
    ensures r == FirstMatch(items, p)
  {
    for i := 0 to |items|
      invariant FirstMatch(items, p) == FirstMatch(items[i..], p)
    {
      if p(items[i]) { return Some(items[i]); }
    }
    return None;
  }

  /** The scan after n answers of a server that never stops answering. */
  function Turns<T>(p: T -> bool, byTags: bool, answers: nat -> Reply<T>, n: nat): Scan<T> {
    if n == 0 then Start()
    else
      var s: Scan<T> := Turns(p, byTags, answers, n - 1);
      if s.Asking? then Turn(p, byTags, s, answers(n - 1)) else s
  }

  /** reflectTryRecover ends on any answers whatever, after at most one call for each item that the first page
      announces, or a single one. */
  method ReflectTryRecover<T>(answers: nat -> Reply<T>, p: T -> bool) returns (r: Scan<T>, calls: nat)
    ensures r == Turns(p, true, answers, calls) && !r.Asking?
    ensures 1 <= calls && (calls > 1 ==> answers(0).Page? && calls <= answers(0).resultCount)
  {
    var cursor: Option<string> := None;
    var total: int, count: nat := 0, 0;
    calls := 0;
    while true
      invariant Turns(p, true, answers, calls) == Asking(cursor, total, count)
      invariant cursor.None? <==> calls == 0
      invariant calls > 0 ==> answers(0).Page? && total == answers(0).resultCount && calls <= count < total
      decreases cursor.None?, total - count
    {
      var reply := answers(calls);
      calls := calls + 1;
      if reply.Failed? { return Broken, calls; }
      var items := |reply.results|;
      var found := Scanned(reply.results, p);
      if found.Some? { return Hit(found.value), calls; }
      if cursor.None? { total := reply.resultCount; }
      count := count + items;
      if count >= total || items == 0 { return Missed, calls; }
      cursor := Some(reply.cursor.GetOr(NoCursor));
    }
  }

  /** The search by name does not end on its own: a server that announces an item and goes on sending empty pages is
      asked for ever. */
  lemma {:induction false} LookupMayNotEnd<T>(p: T -> bool, n: nat)
    ensures Turns(p, false, _ => Page([], 1, None), n) == Asking(None, if n == 0 then 0 else 1, 0)
  {
    if n > 0 { LookupMayNotEnd(p, n - 1); }
  }

  /** It ends where pages are not empty and announce a bounded number of items, after at most that many calls. */
  lemma {:induction false} LookupEnds<T>(p: T -> bool, answers: nat -> Reply<T>, n: nat, bound: nat)
    requires forall i: nat :: i < n ==> answers(i).Page? && answers(i).results != [] && answers(i).resultCount <= bound
    ensures var s := Turns(p, false, answers, n);
            s.Asking? ==> n <= s.count && (n > 0 ==> s.count < s.total <= bound)
    ensures n > 0 && n >= bound ==> !Turns(p, false, answers, n).Asking?
  {
    if n > 0 { LookupEnds(p, answers, n - 1, bound); }
  }

  // ---- faithful listings ----

  /** The first match of a list, or nothing. */
  function Linear<T>(p: T -> bool, items: seq<T>): Scan<T> {
    if FirstMatch(items, p).Some? then Hit(FirstMatch(items, p).value) else Missed
  }

  function Concat<T>(pages: seq<seq<T>>): seq<T> {
    if pages == [] then [] else pages[0] + Concat(pages[1..])
  }

  /** The answers of a server that lists the pages: none is empty unless it is the only one, every one but the last
      comes with a cursor, and the first announces the number of items. */
  ghost predicate Faithful<T>(script: seq<Reply<T>>, pages: seq<seq<T>>) {
    && |script| == |pages| >= 1
    && (forall i :: 0 <= i < |script| ==>
          script[i].Page? && script[i].results == pages[i] && (i < |script| - 1 ==> script[i].cursor.Some?))
    && script[0].resultCount == |Concat(pages)|
    && (|pages| > 1 ==> forall i :: 0 <= i < |pages| ==> pages[i] != [])
  }

  lemma {:induction false} FirstOfAppended<T>(a: seq<T>, b: seq<T>, p: T -> bool)
    ensures FirstMatch(a + b, p) == if FirstMatch(a, p).Some? then FirstMatch(a, p) else FirstMatch(b, p)
  {
    if a == [] {
      assert a + b == b;
    } else {
      FirstOfAppended(a[1..], b, p);
      assert (a + b)[1..] == a[1..] + b;
    }
  }

  /** In the middle of a listing: so many items are still to come. */
  lemma {:induction false} RestIsSearched<T>(p: T -> bool, byTags: bool, s: Scan<T>, script: seq<Reply<T>>, pages: seq<seq<T>>)
    requires s.Asking? && |script| == |pages| >= 1
    requires forall i :: 0 <= i < |script| ==>
               script[i].Page? && script[i].results == pages[i] && (i < |script| - 1 ==> script[i].cursor.Some?)
    requires (if s.cursor.None? then script[0].resultCount else s.total) == s.count + |Concat(pages)|
    requires |pages| > 1 ==> forall i :: 0 <= i < |pages| ==> pages[i] != []
    ensures Search(p, byTags, s, script) == Linear(p, Concat(pages))
    decreases |script|
  {
    FirstOfAppended(pages[0], Concat(pages[1..]), p);
    var next := Turn(p, byTags, s, script[0]);
    if |pages| == 1 {
      assert Concat(pages[1..]) == [];
    } else if next.Asking? {
      RestIsSearched(p, byTags, next, script[1..], pages[1..]);
    } else {
      assert |Concat(pages[1..])| >= |pages[1]|;
    }
  }

  lemma {:induction false} FirstMatches<T>(items: seq<T>, p: T -> bool)
    ensures FirstMatch(items, p).None? <==> forall x :: x in items ==> !p(x)
    ensures FirstMatch(items, p).Some? ==> FirstMatch(items, p).value in items && p(FirstMatch(items, p).value)
  {
    if items != [] { FirstMatches(items[1..], p); }
  }

  /** Paged search refines linear search: on a faithful listing a search finds the first match of all pages together,
      and nothing exactly if no item matches. */
  lemma PagedIsLinear<T>(p: T -> bool, byTags: bool, script: seq<Reply<T>>, pages: seq<seq<T>>)
    requires Faithful(script, pages)
    ensures var r := Search(p, byTags, Start(), script);
            && r == Linear(p, Concat(pages))
            && (r.Missed? <==> forall x :: x in Concat(pages) ==> !p(x))
            && (!r.Missed? ==> r.Hit? && r.item in Concat(pages) && p(r.item))
  {
    RestIsSearched(p, byTags, Start(), script, pages);
    FirstMatches(Concat(pages), p);
  }

  // ---- recovery is a search ----

  /** A search as far as the answers go. */
  function Partial<T>(p: T -> bool, byTags: bool, s: Scan<T>, script: seq<Reply<T>>): Scan<T>
    decreases |script|
  {
    if !s.Asking? || script == [] then s else Partial(p, byTags, Turn(p, byTags, s, script[0]), script[1..])
  }

  lemma {:induction false} SearchIsPartial<T>(p: T -> bool, byTags: bool, s: Scan<T>, script: seq<Reply<T>>)
    ensures var q := Partial(p, byTags, s, script); Search(p, byTags, s, script) == if q.Asking? then Broken else q
    decreases |script|
  {
    if s.Asking? && script != [] { SearchIsPartial(p, byTags, Turn(p, byTags, s, script[0]), script[1..]); }
  }

  lemma {:induction false} OneMoreAnswer<T>(p: T -> bool, byTags: bool, s: Scan<T>, script: seq<Reply<T>>, reply: Reply<T>)
    ensures var q := Partial(p, byTags, s, script);
            Partial(p, byTags, s, script + [reply]) == if q.Asking? then Turn(p, byTags, q, reply) else q
    decreases |script|
  {
    if s.Asking? && script != [] {
      assert (script + [reply])[1..] == script[1..] + [reply];
      OneMoreAnswer(p, byTags, Turn(p, byTags, s, script[0]), script[1..], reply);
    } else if s.Asking? {
      assert script + [reply] == [reply] && [reply][1..] == [];
    }
  }

  function Answered<T>(answers: nat -> Reply<T>, n: nat): seq<Reply<T>> {
    seq(n, i requires 0 <= i => answers(i))
  }

  lemma {:induction false} TurnsAreSearch<T>(p: T -> bool, byTags: bool, answers: nat -> Reply<T>, n: nat)
    ensures Turns(p, byTags, answers, n) == Partial(p, byTags, Start(), Answered(answers, n))
  {
    if n > 0 {
      TurnsAreSearch(p, byTags, answers, n - 1);
      assert Answered(answers, n) == Answered(answers, n - 1) + [answers(n - 1)];
      OneMoreAnswer(p, byTags, Start(), Answered(answers, n - 1), answers(n - 1));
    }
  }

  lemma {:induction false} TurnsEnd<T>(p: T -> bool, byTags: bool, answers: nat -> Reply<T>, m: nat, n: nat)
    requires m <= n && !Turns(p, byTags, answers, m).Asking?
    ensures Turns(p, byTags, answers, n) == Turns(p, byTags, answers, m)
  {
    if m < n { TurnsEnd(p, byTags, answers, m, n - 1); }
  }

  lemma RecoveryIsLinear<T>(p: T -> bool, answers: nat -> Reply<T>, calls: nat, pages: seq<seq<T>>)
    requires !Turns(p, true, answers, calls).Asking? && Faithful(Answered(answers, |pages|), pages)
    ensures Turns(p, true, answers, calls) == Linear(p, Concat(pages))
  {
    var n := |pages|;
    PagedIsLinear(p, true, Answered(answers, n), pages);
    SearchIsPartial(p, true, Start(), Answered(answers, n));
    TurnsAreSearch(p, true, answers, n);
    if calls <= n { TurnsEnd(p, true, answers, calls, n); } else { TurnsEnd(p, true, answers, n, calls); }
  }

  /** TryRecover: on a faithful listing, whatever its pages, the first item of all that carries the tags. */
  method TryRecover(answers: nat -> Reply<Protocol.Item>, tags: seq<Tags.Tag>) returns (found: Option<Protocol.Item>)
    ensures forall pages :: Faithful(Answered(answers, |pages|), pages) ==> found == Protocol.FirstTagged(Concat(pages), tags)
  {
    var p := (i: Protocol.Item) => Tags.ContainsTags(i.obj.tags, tags);
    var r, calls := ReflectTryRecover(answers, p);
    found := if r.Hit? then Some(r.item) else None;
    forall pages | Faithful(Answered(answers, |pages|), pages) ensures found == Protocol.FirstTagged(Concat(pages), tags) {
      RecoveryIsLinear(p, answers, calls, pages);
      RecoveryIsFirstMatch(Concat(pages), tags);
    }
  }

  /** The search by tags is the recovery of the protocol. */
  lemma {:induction false} RecoveryIsFirstMatch(items: seq<Protocol.Item>, tags: seq<Tags.Tag>)
    ensures Protocol.FirstTagged(items, tags)
            == FirstMatch(items, (i: Protocol.Item) => Tags.ContainsTags(i.obj.tags, tags))
  {
    if items != [] { RecoveryIsFirstMatch(items[1..], tags); }
  }
}
