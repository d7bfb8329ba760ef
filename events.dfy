/** Expansion and de-duplication of a channel's autocmd rules (uniqueEvent in
    denops/autocursor/main.ts). A rule names one autocmd event or a list of
    them; the rules are flattened into one record per event name and then
    every (name, value, wait) key is kept only at its first occurrence. */
module Events {

  /** The `name` of a rule: a single autocmd event, or a list of events. */
  datatype Names = One(name: string) | Many(names: seq<string>)

  /** A rule: on event(s) `name`, request option value `value` (the source's `set`) after `wait` ms. */
  datatype Event = Event(name: Names, value: bool, wait: int)

  /** A record that names exactly one event: the form every output record has.
      For such records, equality of records is equality of the
      key the source builds from the name, the `set` flag and the wait. */
  predicate Single(e: Event) {
    e.name.One?
  }

  predicate AllSingle(es: seq<Event>) {
    forall i :: 0 <= i < |es| ==> Single(es[i])
  }

  predicate NoDuplicates(es: seq<Event>) {
    forall i, j :: 0 <= i < j < |es| ==> es[i] != es[j]
  }

  /** Position of the first occurrence of `x` in `s`. */
  function FirstIndex(s: seq<Event>, x: Event): (k: nat)
    requires x in s
    ensures k < |s| && s[k] == x
    ensures forall j :: 0 <= j < k ==> s[j] != x
  {
    if s[0] == x then 0 else 1 + FirstIndex(s[1..], x)
  }

  /** `a` lists its records in the order of their first occurrence in `s`. */
  ghost predicate OrderedByFirstOccurrence(s: seq<Event>, a: seq<Event>)
    requires forall x :: x in a ==> x in s
  {
    forall i, j :: 0 <= i < j < |a| ==> FirstIndex(s, a[i]) < FirstIndex(s, a[j])
  }

  /** The records a list-named rule expands into: one per name, in list order,
      each carrying the rule's `value` (the source's `set`) and `wait`. */
  function ExpandNames(names: seq<string>, value: bool, wait: int): (r: seq<Event>)
    ensures |r| == |names|
    ensures forall i :: 0 <= i < |r| ==> r[i] == Event(One(names[i]), value, wait)
  {
    if names == [] then []
    else [Event(One(names[0]), value, wait)] + ExpandNames(names[1..], value, wait)
  }

  /** One rule, expanded: a single-named rule is kept as it is. */
  function Expand(e: Event): (r: seq<Event>)
    ensures AllSingle(r)
  {
    match e.name
    case One(_) => [e]
    case Many(names) => ExpandNames(names, e.value, e.wait)
  }

  /** `events.map(expand).flat()`. */
  function ExpandAll(es: seq<Event>): (r: seq<Event>)
    ensures AllSingle(r)
  {
    if es == [] then [] else Expand(es[0]) + ExpandAll(es[1..])
  }

  /** Flattening distributes over concatenation of rule lists, so together with
      `ExpandAll([e]) == Expand(e)` it says the output is the expansion of each
      rule in turn, in rule order. */
  lemma {:induction false} ExpandAllAppend(a: seq<Event>, b: seq<Event>)
    ensures ExpandAll(a + b) == ExpandAll(a) + ExpandAll(b)
  {
    if a == [] {
      assert a + b == b;
    } else {
      assert (a + b)[1..] == a[1..] + b;
      ExpandAllAppend(a[1..], b);
    }
  }

  /** Rules that already name one event each expand to themselves. */
  lemma {:induction false} ExpandAllOfSingles(es: seq<Event>)
    requires AllSingle(es)
    ensures ExpandAll(es) == es
  {
    if es != [] {
      ExpandAllOfSingles(es[1..]);
    }
  }

  /** The `filter` with the `unique` set: keep a record only if its key has not
      been seen, then add the key to the seen set. */
  function Dedup(s: seq<Event>, seen: set<Event>): (r: seq<Event>)
    ensures |r| <= |s|
    ensures NoDuplicates(r)
    ensures forall x :: x in r <==> x in s && x !in seen
    ensures OrderedByFirstOccurrence(s, r)
  {
    if s == [] then []
    else if s[0] in seen then Dedup(s[1..], seen)
    else [s[0]] + Dedup(s[1..], seen + {s[0]})
  }

  /** uniqueEvent: expand every rule and keep the first occurrence of each
      (name, value, wait) key. */
  function UniqueEvent(es: seq<Event>): (r: seq<Event>)
    ensures AllSingle(r)
    ensures NoDuplicates(r)
    ensures |r| <= |ExpandAll(es)|
    ensures forall x :: x in r <==> x in ExpandAll(es)
    ensures OrderedByFirstOccurrence(ExpandAll(es), r)
  {
    var r := Dedup(ExpandAll(es), {});
    assert forall i :: 0 <= i < |r| ==> r[i] in ExpandAll(es);
    r
  }

  /** A duplicate-free list none of whose keys was seen passes the filter whole. */
  lemma {:induction false} DedupOfDistinct(s: seq<Event>, seen: set<Event>)
    requires NoDuplicates(s)
    requires forall x :: x in s ==> x !in seen
    ensures Dedup(s, seen) == s
  {
    if s != [] {
      DedupOfDistinct(s[1..], seen + {s[0]});
    }
  }

  /** A record whose key is already known adds nothing when appended. */
  lemma {:induction false} DedupAppendSeen(s: seq<Event>, seen: set<Event>, x: Event)
    requires x in s || x in seen
    ensures Dedup(s + [x], seen) == Dedup(s, seen)
  {
    if s == [] {
      assert [x][1..] == [];
    } else {
      assert (s + [x])[0] == s[0];
      assert (s + [x])[1..] == s[1..] + [x];
      if s[0] in seen {
        DedupAppendSeen(s[1..], seen, x);
      } else {
        DedupAppendSeen(s[1..], seen + {s[0]}, x);
      }
    }
  }

  /** Applying uniqueEvent to its own output changes nothing. */
  lemma UniqueEventIdempotent(es: seq<Event>)
    ensures UniqueEvent(UniqueEvent(es)) == UniqueEvent(es)
  {
    var r := UniqueEvent(es);
    ExpandAllOfSingles(r);
    DedupOfDistinct(r, {});
  }

  /** In such a list the head comes first in `s` among all its records. */
  lemma HeadFirst(s: seq<Event>, a: seq<Event>, x: Event)
    requires forall y :: y in a ==> y in s
    requires OrderedByFirstOccurrence(s, a)
    requires x in a && x != a[0]
    ensures FirstIndex(s, a[0]) < FirstIndex(s, x)
  {
  }

  /** Dropping the head of a duplicate-free list removes exactly that record. */
  lemma TailElements(a: seq<Event>, x: Event)
    requires NoDuplicates(a) && a != []
    ensures x in a[1..] <==> x in a && x != a[0]
  {
  }

  /** Two duplicate-free lists with the same records, both ordered by first
      occurrence in `s`, are equal. */
  lemma {:induction false} FirstOccurrenceOrderUnique(s: seq<Event>, a: seq<Event>, b: seq<Event>)
    requires NoDuplicates(a) && NoDuplicates(b)
    requires forall x :: x in a ==> x in s
    requires forall x :: x in a <==> x in b
    requires OrderedByFirstOccurrence(s, a) && OrderedByFirstOccurrence(s, b)
    ensures a == b
    decreases |a|
  {
    if a == [] {
      assert forall i :: 0 <= i < |b| ==> b[i] !in a;
    } else {
      assert a[0] in b;
      assert b[0] in a;
      if a[0] != b[0] {
        HeadFirst(s, a, b[0]);
        HeadFirst(s, b, a[0]);
        assert false;
      }
      forall x
        ensures x in a[1..] <==> x in b[1..]
      {
        TailElements(a, x);
        TailElements(b, x);
      }
      assert OrderedByFirstOccurrence(s, a[1..]);
      assert OrderedByFirstOccurrence(s, b[1..]);
      FirstOccurrenceOrderUnique(s, a[1..], b[1..]);
      assert a == [a[0]] + a[1..];
      assert b == [b[0]] + b[1..];
    }
  }

  /** uniqueEvent is the only duplicate-free list that holds exactly the
      expanded records, ordered by where each first appears. */
  lemma UniqueEventCharacterized(es: seq<Event>, r: seq<Event>)
    requires NoDuplicates(r)
    requires forall x :: x in r <==> x in ExpandAll(es)
    requires OrderedByFirstOccurrence(ExpandAll(es), r)
    ensures r == UniqueEvent(es)
  {
    FirstOccurrenceOrderUnique(ExpandAll(es), r, UniqueEvent(es));
  }

  /** The rules a channel is configured with by default: hold events request
      the option on after `holdWait`, entering a window or buffer requests it
      on at once, moving the cursor requests it off at once. */
  function DefaultEvents(holdWait: int): (r: seq<Event>)
    // whatever the hold wait, the defaults subscribe six distinct records:
    // uniqueEvent keeps them all
    ensures |ExpandAll(r)| == 6 && NoDuplicates(ExpandAll(r))
    ensures forall e :: e in ExpandAll(r) && !e.value ==> e.wait == 0
  {
    var r := [ Event(Many(["CursorHold", "CursorHoldI"]), true, holdWait),
               Event(Many(["WinEnter", "BufEnter"]), true, 0),
               Event(Many(["CursorMoved", "CursorMovedI"]), false, 0) ];
    assert Expand(r[0]) == [Event(One("CursorHold"), true, holdWait), Event(One("CursorHoldI"), true, holdWait)];
    assert Expand(r[1]) == [Event(One("WinEnter"), true, 0), Event(One("BufEnter"), true, 0)];
    assert Expand(r[2]) == [Event(One("CursorMoved"), false, 0), Event(One("CursorMovedI"), false, 0)];
    assert ExpandAll(r) == Expand(r[0]) + ExpandAll([r[1], r[2]]);
    assert ExpandAll([r[1], r[2]]) == Expand(r[1]) + ExpandAll([r[2]]);
    assert ExpandAll(r) ==
      [ Event(One("CursorHold"), true, holdWait), Event(One("CursorHoldI"), true, holdWait),
        Event(One("WinEnter"), true, 0), Event(One("BufEnter"), true, 0),
        Event(One("CursorMoved"), false, 0), Event(One("CursorMovedI"), false, 0) ];
    r
  }

  /** A merged rule list whose later rule repeats an earlier key subscribes
      to nothing new: the repeated key is dropped. */
  lemma RedeclaredRuleDropped()
    ensures UniqueEvent(DefaultEvents(100) + [Event(One("CursorHold"), true, 100)])
         == UniqueEvent(DefaultEvents(100))
    ensures |UniqueEvent(DefaultEvents(100))| == 6
  {
    var d := DefaultEvents(100);
    var extra := Event(One("CursorHold"), true, 100);
    ExpandAllAppend(d, [extra]);
    var s := ExpandAll(d);
    assert s == [ Event(One("CursorHold"), true, 100), Event(One("CursorHoldI"), true, 100),
                  Event(One("WinEnter"), true, 0), Event(One("BufEnter"), true, 0),
                  Event(One("CursorMoved"), false, 0), Event(One("CursorMovedI"), false, 0) ];
    assert ExpandAll([extra]) == [extra];
    assert NoDuplicates(s);
    DedupOfDistinct(s, {});
    DedupAppendSeen(s, {}, extra);
  }
}
