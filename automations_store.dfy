/**
  The user's list of automations: add by name (blank names refused), delete
  and reorder by offsets as list editing does, and mark a single master.
*/
module Automations {
  import opened Calendar
  import opened Seqs

  datatype AutomationItem = AutomationItem(id: Uuid, name: string, enabled: bool, delaySeconds: int, isMaster: bool)

  /** A new item: enabled, no delay, not the master. */
  function NewItem(id: Uuid, name: string): (r: AutomationItem)
    ensures r.id == id && r.name == name
    ensures r.enabled && r.delaySeconds == 0 && !r.isMaster
  {
    AutomationItem(id, name, true, 0, false)
  }

  /** Foundation's whitespace-and-newline set: Unicode separators (Z*), U+0009 to U+000D and U+0085. */
  predicate IsWhitespaceOrNewline(c: char) {
    c == ' ' || '\t' <= c <= '\r' || c == '\U{85}' || c == '\U{A0}' || c == '\U{1680}' ||
    '\U{2000}' <= c <= '\U{200A}' || c == '\U{2028}' || c == '\U{2029}' || c == '\U{202F}' ||
    c == '\U{205F}' || c == '\U{3000}'
  }

  function TrimLeading(s: string): string {
    if s != [] && IsWhitespaceOrNewline(s[0]) then TrimLeading(s[1..]) else s
  }

  function TrimTrailing(s: string): string {
    if s != [] && IsWhitespaceOrNewline(s[|s| - 1]) then TrimTrailing(s[..|s| - 1]) else s
  }

  /** The name with whitespace and newlines removed from both ends. */
  function Trimmed(s: string): string {
    TrimTrailing(TrimLeading(s))
  }

  predicate IsBlank(s: string) {
    forall i :: 0 <= i < |s| ==> IsWhitespaceOrNewline(s[i])
  }

  lemma {:induction false} TrimLeadingEmptyIffBlank(s: string)
    ensures TrimLeading(s) == [] <==> IsBlank(s)
    ensures TrimLeading(s) != [] ==> !IsWhitespaceOrNewline(TrimLeading(s)[0])
    decreases |s|
  {
    if s != [] && IsWhitespaceOrNewline(s[0]) {
      TrimLeadingEmptyIffBlank(s[1..]);
      assert IsBlank(s) <==> IsBlank(s[1..]) by {
        if IsBlank(s[1..]) {
          assert forall i :: 1 <= i < |s| ==> s[i] == s[1..][i - 1];
        }
      }
    }
  }

  lemma {:induction false} TrimTrailingKeepsFirst(s: string)
    requires s != [] && !IsWhitespaceOrNewline(s[0])
    ensures TrimTrailing(s) != []
    decreases |s|
  {
    if IsWhitespaceOrNewline(s[|s| - 1]) {
      TrimTrailingKeepsFirst(s[..|s| - 1]);
    }
  }

  /** A name trims to nothing exactly when every character is whitespace or a newline. */
  lemma TrimmedEmptyIffBlank(s: string)
    ensures Trimmed(s) == [] <==> IsBlank(s)
  {
    TrimLeadingEmptyIffBlank(s);
    if TrimLeading(s) != [] {
      TrimTrailingKeepsFirst(TrimLeading(s));
    }
  }

  predicate InRange(offsets: set<nat>, n: nat) {
    forall i :: i in offsets ==> i < n
  }

  /** `move(fromOffsets:toOffset:)`: the moved items, in order, go where offset `to` was. */
  function Moved<T>(s: seq<T>, from: set<nat>, to: nat): (r: seq<T>)
    requires to <= |s|
    ensures multiset(r) == multiset(s)
    ensures |r| == |s|
  {
    var before, moved, after := Pick(s[..to], from, false, 0), Pick(s, from, true, 0), Pick(s[to..], from, false, to);
    assert s[..to] + s[to..] == s;
    PickConcat(s[..to], s[to..], from, false, 0);
    assert Pick(s, from, false, 0) == before + after;
    PickPartition(s, from, 0);
    assert multiset(before + moved + after) == multiset(moved) + multiset(before + after);
    before + moved + after
  }

  /**
    Removing offsets keeps exactly the items at the other offsets, in their
    original order.
  */
  lemma RemoveKeepsOthersInOrder(items: seq<AutomationItem>, offsets: set<nat>)
    ensures Selects(Pick(items, offsets, false, 0), items, PickIndices(offsets, false, 0, |items|), 0)
  {
    PickAtIndices(items, offsets, false, 0);
  }

  /** The list after `setMaster`: every item kept, and master iff it has the given id. */
  function WithMaster(items: seq<AutomationItem>, id: Uuid): (r: seq<AutomationItem>)
    ensures |r| == |items|
    ensures forall i :: 0 <= i < |r| ==> (r[i].isMaster <==> items[i].id == id)
    ensures forall i :: 0 <= i < |r| ==> r[i] == items[i].(isMaster := r[i].isMaster)
  {
    seq(|items|, i requires 0 <= i < |items| => items[i].(isMaster := items[i].id == id))
  }

  predicate UniqueIds(items: seq<AutomationItem>) {
    forall i, j :: 0 <= i < j < |items| ==> items[i].id != items[j].id
  }

  /** With distinct ids, at most one item is the master after `setMaster`. */
  lemma AtMostOneMaster(items: seq<AutomationItem>, id: Uuid)
    requires UniqueIds(items)
    ensures var r := WithMaster(items, id);
      forall i, j :: 0 <= i < |r| && 0 <= j < |r| && r[i].isMaster && r[j].isMaster ==> i == j
  {
  }

  lemma SetMasterIdempotent(items: seq<AutomationItem>, id: Uuid)
    ensures WithMaster(WithMaster(items, id), id) == WithMaster(items, id)
  {
  }

  class AutomationsStore {
    var items: seq<AutomationItem>

    constructor (saved: seq<AutomationItem>)
      ensures items == saved
    {
      items := saved;
    }

    /** Appends a new item unless the name is empty once trimmed. */
    method Add(name: string, id: Uuid)
      modifies this
      ensures IsBlank(name) ==> items == old(items)
      ensures !IsBlank(name) ==> items == old(items) + [NewItem(id, name)]
    {
      TrimmedEmptyIffBlank(name);
      if Trimmed(name) == [] {
        return;
      }
      items := items + [NewItem(id, name)];
    }

    method Remove(offsets: set<nat>)
      requires InRange(offsets, |items|)
      modifies this
      ensures items == Pick(old(items), offsets, false, 0)
    {
      items := Pick(items, offsets, false, 0);
    }

    method Move(from: set<nat>, to: nat)
      requires InRange(from, |items|) && to <= |items|
      modifies this
      ensures items == Moved(old(items), from, to)
      ensures multiset(items) == multiset(old(items))
    {
      items := Moved(items, from, to);
    }

    method SetMaster(item: AutomationItem)
      modifies this
      ensures items == WithMaster(old(items), item.id)
    {
      items := WithMaster(items, item.id);
    }
  }

}
