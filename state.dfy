/** The session registry of `src/state.ts`: the ordered list of running
    sessions, its persisted mirror `lastSessions` in the workspace state,
    and the status bar item that shows the count. */
module Registry {
  import opened Wrappers
  import opened Strings
  import opened Numbers
  import opened Sessions
  import Argon

  // ---- Status bar text and tooltip

  const BaseText: string := "$(argon-logo) Argon"

  /** The status bar text for `count` sessions. */
  function StatusText(count: nat): string {
    if count == 0 then BaseText else BaseText + " (" + NatToString(count) + ")"
  }

  /** The text is the bare name exactly when there are no sessions, and
      otherwise the count can be read back from it. */
  lemma StatusTextShowsCount(count: nat)
    ensures StatusText(count) == BaseText <==> count == 0
    ensures count > 0 ==>
      var t := StatusText(count);
      |t| > |BaseText| + 3 && AllDigits(t[|BaseText| + 2..|t| - 1])
      && ParseDigits(t[|BaseText| + 2..|t| - 1]) == count
  {
    if count > 0 {
      var t := StatusText(count);
      assert |t| > |BaseText|;
      assert t[|BaseText| + 2..|t| - 1] == NatToString(count);
      ParseNatToString(count);
    }
  }

  /** Different counts show different texts. */
  lemma StatusTextInjective(m: nat, n: nat)
    requires StatusText(m) == StatusText(n)
    ensures m == n
  {
    StatusTextShowsCount(m);
    StatusTextShowsCount(n);
  }

  /** One piece of the Markdown tooltip: `appendMarkdown` or
      `appendCodeblock`. */
  datatype TooltipPart = Markdown(text: string) | CodeBlock(code: string)

  datatype Tooltip = PlainTooltip(text: string) | MarkdownTooltip(parts: seq<TooltipPart>)

  /** What one session adds to the tooltip: its name as a heading, its type
      and file, its address when it has a non-empty one, then a rule. */
  function SessionParts(s: Session): (parts: seq<TooltipPart>)
    reads s
    ensures |parts| == if Truthy(s.address) then 5 else 4
    ensures parts[0] == Markdown("## " + s.name + "\n") && parts[|parts| - 1] == Markdown("---\n")
  {
    [Markdown("## " + s.name + "\n"), CodeBlock("Type: " + TypeName(s.sessionType) + "\n"),
     CodeBlock("File: " + s.project + "\n")]
    + (if Truthy(s.address) then [CodeBlock("Address: " + s.address.value + "\n")] else [])
    + [Markdown("---\n")]
  }

  function AllParts(ss: seq<Session>): seq<TooltipPart>
    reads ss
  {
    if ss == [] then [] else AllParts(ss[..|ss| - 1]) + SessionParts(ss[|ss| - 1])
  }

  /** The tooltip of `updateItem`. */
  function TooltipOf(ss: seq<Session>): Tooltip
    reads ss
  {
    if |ss| == 0 then PlainTooltip("No running sessions") else MarkdownTooltip(AllParts(ss))
  }

  /** Every session's heading is in the tooltip, and the plain
      `No running sessions` shows exactly when there are none. */
  lemma {:induction false} TooltipListsSessions(ss: seq<Session>)
    ensures TooltipOf(ss) == PlainTooltip("No running sessions") <==> |ss| == 0
    ensures forall s :: s in ss ==> Markdown("## " + s.name + "\n") in AllParts(ss)
    decreases |ss|
  {
    if ss != [] {
      var init := ss[..|ss| - 1];
      TooltipListsSessions(init);
      forall s | s in ss
        ensures Markdown("## " + s.name + "\n") in AllParts(ss)
      {
        if s != ss[|ss| - 1] {
          assert s in init;
        }
      }
    }
  }

  // ---- The session list

  /** `find((s) => session.equals(s)) !== undefined`. */
  predicate HasEqual(ss: seq<Session>, session: Session)
    reads ss, session
  {
    exists i :: 0 <= i < |ss| && session.Equals(ss[i])
  }

  /** A warning sent to the logging sink: an equal session of type
      `sessionType` on `project` is already running. */
  datatype Warning = Duplicate(sessionType: SessionType, project: string)

  /** The text of a warning as the sink receives it. */
  function WarningText(w: Warning): string {
    "Session with type: " + TypeName(w.sessionType) + " and project: " + w.project
    + " is already running. Ignore this message if this is desired behavior"
  }

  /** The sessions whose id is not in `ids`, in their order
      (`filter((session) => !ids.includes(session.id))`). */
  function Kept(ss: seq<Session>, ids: seq<int>): seq<Session>
  {
    if ss == [] then []
    else Kept(ss[..|ss| - 1], ids) + (if ss[|ss| - 1].id in ids then [] else [ss[|ss| - 1]])
  }

  /** Filtering distributes over concatenation, so the kept sessions keep
      their relative order. */
  lemma {:induction false} KeptConcat(a: seq<Session>, b: seq<Session>, ids: seq<int>)
    ensures Kept(a + b, ids) == Kept(a, ids) + Kept(b, ids)
    decreases |b|
  {
    if b == [] {
      assert a + b == a;
    } else {
      var last := b[|b| - 1];
      assert (a + b)[..|a + b| - 1] == a + b[..|b| - 1];
      KeptConcat(a, b[..|b| - 1], ids);
    }
  }

  /** A session is kept exactly when it was there and its id is not
      removed. */
  lemma {:induction false} KeptMembers(ss: seq<Session>, ids: seq<int>)
    ensures forall i :: 0 <= i < |Kept(ss, ids)| ==> Kept(ss, ids)[i] in ss && Kept(ss, ids)[i].id !in ids
    ensures forall i :: 0 <= i < |ss| && ss[i].id !in ids ==> ss[i] in Kept(ss, ids)
    decreases |ss|
  {
    if ss != [] {
      var init := ss[..|ss| - 1];
      KeptMembers(init, ids);
      assert ss == init + [ss[|ss| - 1]];
      forall i | 0 <= i < |ss| && ss[i].id !in ids
        ensures ss[i] in Kept(ss, ids)
      {
        if i < |ss| - 1 {
          assert ss[i] == init[i];
        }
      }
    }
  }

  /** Removing ids that no session has changes nothing. */
  lemma {:induction false} KeptWithoutMatches(ss: seq<Session>, ids: seq<int>)
    requires forall i :: 0 <= i < |ss| ==> ss[i].id !in ids
    ensures Kept(ss, ids) == ss
    decreases |ss|
  {
    if ss != [] {
      KeptWithoutMatches(ss[..|ss| - 1], ids);
      assert ss[..|ss| - 1] + [ss[|ss| - 1]] == ss;
    }
  }

  /** Removing the same ids twice is removing them once. */
  lemma {:induction false} KeptIdempotent(ss: seq<Session>, ids: seq<int>)
    ensures Kept(Kept(ss, ids), ids) == Kept(ss, ids)
  {
    KeptMembers(ss, ids);
    var k := Kept(ss, ids);
    KeptWithoutMatches(k, ids);
  }

  /** The loop of `updateItem` that appends each session's lines to the
      tooltip, in registry order. */
  method TooltipParts(ss: seq<Session>) returns (parts: seq<TooltipPart>)
    ensures parts == AllParts(ss)
  {
    parts := [];
    var i := 0;
    while i < |ss|
      invariant 0 <= i <= |ss|
      invariant parts == AllParts(ss[..i])
    {
      assert ss[..i + 1][..i] == ss[..i];
      parts := parts + SessionParts(ss[i]);
      i := i + 1;
    }
    assert ss[..i] == ss;
  }

  // ---- The persisted mirror

  /** One entry of the persisted array: a session, or `undefined` once it
      has been removed. */
  type Slot = Option<Session>

  /** The array `addSession` persists: every session, in order. */
  function Slots(ss: seq<Session>): (slots: seq<Slot>)
    ensures |slots| == |ss| && forall i :: 0 <= i < |ss| ==> slots[i] == Some(ss[i])
  {
    seq(|ss|, i requires 0 <= i < |ss| => Some(ss[i]))
  }

  /** `findIndex((value) => value === session)`: the first slot holding
      this very object. */
  function FindSlot(slots: seq<Slot>, session: Session): (r: Option<nat>)
    ensures r.Some? ==> r.value < |slots| && slots[r.value] == Some(session)
    ensures r.Some? ==> forall j :: 0 <= j < r.value ==> slots[j] != Some(session)
    ensures r.None? ==> forall j :: 0 <= j < |slots| ==> slots[j] != Some(session)
  {
    if slots == [] then None
    else if slots[0] == Some(session) then Some(0)
    else match FindSlot(slots[1..], session)
      case None => None
      case Some(k) => Some(k + 1)
  }

  /** The mirror after the filter callback has visited `session`: when the
      session is removed and the mirror is an array, its first slot
      holding the session becomes `undefined`. */
  function ClearOne(mirror: Option<seq<Slot>>, session: Session, ids: seq<int>): Option<seq<Slot>>
  {
    if session.id in ids && mirror.Some? then
      match FindSlot(mirror.value, session)
      case Some(k) => Some(mirror.value[k := None])
      case None => mirror
    else mirror
  }

  /** The mirror after the filter has visited all of `ss`. */
  function Cleared(mirror: Option<seq<Slot>>, ss: seq<Session>, ids: seq<int>): Option<seq<Slot>>
  {
    if ss == [] then mirror
    else ClearOne(Cleared(mirror, ss[..|ss| - 1], ids), ss[|ss| - 1], ids)
  }

  /** Clearing only turns slots into `undefined`: the array keeps its
      length, and a slot holding a session that is not removed stays. */
  lemma {:induction false} ClearedOnlyUnsets(mirror: Option<seq<Slot>>, ss: seq<Session>, ids: seq<int>)
    ensures Cleared(mirror, ss, ids).Some? <==> mirror.Some?
    ensures mirror.Some? ==> |Cleared(mirror, ss, ids).value| == |mirror.value|
    ensures mirror.Some? ==> forall k :: 0 <= k < |mirror.value| ==>
      Cleared(mirror, ss, ids).value[k] == mirror.value[k] || Cleared(mirror, ss, ids).value[k].None?
    ensures mirror.Some? ==> forall k :: 0 <= k < |mirror.value| && mirror.value[k].Some? && mirror.value[k].value.id !in ids ==>
      Cleared(mirror, ss, ids).value[k] == mirror.value[k]
    decreases |ss|
  {
    if ss != [] {
      ClearedOnlyUnsets(mirror, ss[..|ss| - 1], ids);
    }
  }

  /** When every removed session was added once, the mirror written by
      `addSession` loses exactly the removed sessions. */
  lemma {:induction false} ClearedMirrorOfDistinct(ss: seq<Session>, ids: seq<int>, n: nat)
    requires forall i, j :: 0 <= i < j < |ss| ==> ss[i] != ss[j]
    requires n <= |ss|
    ensures Cleared(Some(Slots(ss)), ss[..n], ids).Some?
    ensures |Cleared(Some(Slots(ss)), ss[..n], ids).value| == |ss|
    ensures forall k :: 0 <= k < |ss| ==>
      Cleared(Some(Slots(ss)), ss[..n], ids).value[k] == (if k < n && ss[k].id in ids then None else Some(ss[k]))
  {
    if n > 0 {
      ClearedMirrorOfDistinct(ss, ids, n - 1);
      assert ss[..n][..n - 1] == ss[..n - 1];
      var prev := Cleared(Some(Slots(ss)), ss[..n - 1], ids);
      var s := ss[n - 1];
      if s.id in ids {
        assert prev.value[n - 1] == Some(s);
        assert forall j :: 0 <= j < n - 1 ==> prev.value[j] != Some(s);
        assert FindSlot(prev.value, s) == Some(n - 1);
      }
    }
  }

  /** One step of the removal loop: the filter and the mirror both see
      one more session. */
  lemma KeptClearedStep(mirror: Option<seq<Slot>>, ss: seq<Session>, i: int, ids: seq<int>)
    requires 0 <= i < |ss|
    ensures Kept(ss[..i + 1], ids) == Kept(ss[..i], ids) + (if ss[i].id in ids then [] else [ss[i]])
    ensures Cleared(mirror, ss[..i + 1], ids) == ClearOne(Cleared(mirror, ss[..i], ids), ss[i], ids)
  {
    assert ss[..i + 1][..i] == ss[..i];
  }

  /** The search of `addSession` for an equal session already running. */
  method FindEqual(ss: seq<Session>, session: Session) returns (found: bool)
    ensures found == HasEqual(ss, session)
  {
    found := false;
    var i := 0;
    while i < |ss|
      invariant 0 <= i <= |ss|
      invariant found <==> exists j :: 0 <= j < i && session.Equals(ss[j])
    {
      if session.Equals(ss[i]) {
        found := true;
      }
      i := i + 1;
    }
  }

  /** The filter of `removeSessions`: the sessions kept, and the mirror
      after the callback has cleared each removed session's slot. */
  method RemoveFrom(ss: seq<Session>, mirror: Option<seq<Slot>>, ids: seq<int>)
    returns (kept: seq<Session>, persisted: Option<seq<Slot>>)
    ensures kept == Kept(ss, ids) && persisted == Cleared(mirror, ss, ids)
  {
    persisted := mirror;
    kept := [];
    var i := 0;
    while i < |ss|
      invariant 0 <= i <= |ss|
      invariant kept == Kept(ss[..i], ids)
      invariant persisted == Cleared(mirror, ss[..i], ids)
    {
      KeptClearedStep(mirror, ss, i, ids);
      var session := ss[i];
      var matches := session.id in ids;
      if matches && persisted.Some? {
        var index := FindSlot(persisted.value, session);
        if index.Some? {
          persisted := Some(persisted.value[index.value := None]);
        }
      }
      if !matches {
        kept := kept + [session];
      }
      i := i + 1;
    }
    assert ss[..i] == ss;
  }

  // ---- The registry

  class State {
    const version: string
    /** The registry's sessions, in the order they were added. */
    var sessions: seq<Session>
    /** The workspace state's `lastSessions`. */
    var lastSessions: Option<seq<Slot>>
    /** The status bar item. */
    var text: string
    var tooltip: Tooltip
    var command: Option<string>
    var visible: bool
    /** The warnings sent to the logging sink. */
    var warnings: seq<Warning>

    /** `new State(context, version)`, with the workspace state holding
        `previous` from an earlier run. */
    constructor(version: string, previous: Option<seq<Slot>>)
      ensures this.version == version && sessions == [] && lastSessions == previous
      ensures text == "" && tooltip == PlainTooltip("") && command.None? && !visible && warnings == []
    {
      this.version := version;
      sessions := [];
      lastSessions := previous;
      text := "";
      tooltip := PlainTooltip("");
      command := None;
      visible := false;
      warnings := [];
    }

    /** `show()`. */
    method Show()
      modifies this
      ensures command == Some("argon.openMenu") && text == BaseText
      ensures tooltip == PlainTooltip("No running sessions") && visible
      ensures sessions == old(sessions) && lastSessions == old(lastSessions) && warnings == old(warnings)
    {
      command := Some("argon.openMenu");
      text := BaseText;
      tooltip := PlainTooltip("No running sessions");
      visible := true;
    }

    /** `updateItem()`. */
    method UpdateItem()
      modifies this
      ensures text == StatusText(|sessions|) && tooltip == TooltipOf(sessions)
      ensures sessions == old(sessions) && lastSessions == old(lastSessions) && warnings == old(warnings)
      ensures command == old(command) && visible == old(visible)
    {
      var sessionCount := |sessions|;
      var parts := TooltipParts(sessions);
      text := if sessionCount == 0 then BaseText else BaseText + " (" + NatToString(sessionCount) + ")";
      if sessionCount == 0 {
        tooltip := PlainTooltip("No running sessions");
      } else {
        tooltip := MarkdownTooltip(parts);
      }
    }

    /** `addSession(session)`: always appends, warns about an equal
        session already running, and persists the whole list. */
    method AddSession(session: Session)
      modifies this
      ensures sessions == old(sessions) + [session]
      ensures warnings == old(warnings) + (if HasEqual(old(sessions), session) then [Duplicate(session.sessionType, session.project)] else [])
      ensures lastSessions == Some(Slots(sessions))
      ensures text == StatusText(|sessions|) && tooltip == TooltipOf(sessions)
      ensures command == old(command) && visible == old(visible)
    {
      var found := FindEqual(sessions, session);
      var warning := if found then [Duplicate(session.sessionType, session.project)] else [];
      var ss := sessions + [session];
      warnings := warnings + warning;
      sessions := ss;
      lastSessions := Some(Slots(ss));
      UpdateItem();
    }

    /** `removeSessions(ids)`: keeps the sessions whose id is not listed,
        in order; clears the removed ones from the persisted array, and
        drops the array once no session is left. */
    method RemoveSessions(ids: seq<int>)
      modifies this
      ensures sessions == Kept(old(sessions), ids)
      ensures lastSessions == if sessions == [] then None else Cleared(old(lastSessions), old(sessions), ids)
      ensures text == StatusText(|sessions|) && tooltip == TooltipOf(sessions)
      ensures warnings == old(warnings) && command == old(command) && visible == old(visible)
    {
      var kept, persisted := RemoveFrom(sessions, lastSessions, ids);
      sessions := kept;
      if |kept| == 0 {
        lastSessions := None;
      } else {
        lastSessions := persisted;
      }
      UpdateItem();
    }

    /** `getSessions()`: a fresh copy of the list. */
    method GetSessions() returns (copy: array<Session>)
      ensures fresh(copy) && copy[..] == sessions
    {
      copy := new Session[|sessions|](i requires 0 <= i < |sessions| reads this => sessions[i]);
    }

    /** `cleanup()`: one `stop` of every session id in registry order, or
        nothing when no session runs. */
    method Cleanup() returns (call: Option<Argon.Invocation>)
      ensures call.Some? <==> |sessions| > 0
      ensures call.Some? ==> call.value == Argon.StopCall(IdsOf(sessions))
    {
      var ids := IdsOf(sessions);
      if |ids| > 0 {
        call := Some(Argon.StopCall(ids));
      } else {
        call := None;
      }
    }
  }

  /** The ids of a list of sessions, in order. */
  function IdsOf(ss: seq<Session>): (ids: seq<int>)
    ensures |ids| == |ss| && forall i :: 0 <= i < |ss| ==> ids[i] == ss[i].id
  {
    if ss == [] then [] else [ss[0].id] + IdsOf(ss[1..])
  }
}
