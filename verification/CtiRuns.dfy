/** Every run of CTI saves, starting from a missing file. */
module CtiRuns {
  import opened Prelude
  import opened Values
  import opened CtiFields
  import opened CtiRecords
  import opened CtiProgram
  import opened CtiForms
  import opened CtiAudit
  import opened CtiStore

  /** The file, and the documents returned by the saves that succeeded, in order. */
  datatype State = State(file: File, saved: seq<Program>)

  function After(state: State, outcome: Outcome): State {
    State(FileAfter(state.file, outcome), if outcome.Saved? then state.saved + [outcome.program] else state.saved)
  }

  /** The lock serialises the saves of all sessions; this is any order it lets them run in. */
  function Run(w: World, steps: seq<Step>): State {
    if steps == [] then State(None, [])
    else
      var before := Run(w, steps[..|steps| - 1]);
      After(before, Save(w, before.file, steps[|steps| - 1]))
  }

  /** The clock of every step gives a stored time. */
  ghost predicate ClocksOk(w: World, steps: seq<Step>) {
    forall step :: step in steps ==> StoredTime(w.env, step.now)
  }

  /** The document in force before save number i. */
  function Before(w: World, saved: seq<Program>, i: nat): Program
    requires i <= |saved|
  {
    if i == 0 then w.defaults else saved[i - 1]
  }

  /** The event of save number i. */
  function EventOf(w: World, saved: seq<Program>, i: nat): Fields
    requires i < |saved|
  {
    AuditEvent(w.d, Before(w, saved, i), saved[i], i + 1, saved[i].updatedAt)
  }

  function EventsUpTo(w: World, saved: seq<Program>, n: nat): (r: seq<Fields>)
    requires n <= |saved|
    ensures |r| == n
  {
    seq(n, i requires 0 <= i < n => EventOf(w, saved, i))
  }

  /** The document loads as itself or, being over a limit, not at all. */
  ghost predicate LoadsOrNot(w: World, p: Program) {
    && (forall ids :: Load(w, ids, Some(p.ToJson())) in {Some(p), None})
    && (forall ids, otherIds :: Load(w, ids, Some(p.ToJson())) == Load(w, otherIds, Some(p.ToJson())))
  }

  /** Save number i has revision i + 1 and carries the last hundred events of the saves so far. */
  ghost predicate SavesChained(w: World, saved: seq<Program>) {
    forall i :: 0 <= i < |saved| ==>
      && saved[i].revision == i + 1
      && saved[i].history == Last(EventsUpTo(w, saved, i + 1), MAX_AUDIT_HISTORY)
  }

  ghost predicate Inv(w: World, state: State) {
    && SavesChained(w, state.saved)
    && (if state.saved == [] then state.file == None
        else
          var last := state.saved[|state.saved| - 1];
          state.file == Some(last.ToJson()) && LoadsOrNot(w, last))
  }

  /** What is loaded is the last document saved, or the default. */
  lemma LoadedIsLast(w: World, state: State, ids: IdSource)
    requires w.Lawful() && Inv(w, state)
    ensures Load(w, ids, state.file).Some? ==>
      var current := Load(w, ids, state.file).value;
      && current == Before(w, state.saved, |state.saved|)
      && current.revision == |state.saved|
      && LoadsAsItself(w.env, current)
      && current.history == Last(EventsUpTo(w, state.saved, |state.saved|), MAX_AUDIT_HISTORY)
  {
    hide NormalizeProgram, Program.ToJson, LoadsAsItself, EventOf, Env.Lawful, Digests.Lawful;
    if state.saved != [] && Load(w, ids, state.file).Some? {
      var p := state.saved[|state.saved| - 1];
      assert NormalizeProgram(w.env, ids, p.ToJson(), true) == Some(p);
      NormalizationIsFixed(w.env, ids, p.ToJson(), true);
    }
  }

  lemma LongerEvents(w: World, saved: seq<Program>, p: Program)
    ensures forall n: nat | n <= |saved| :: EventsUpTo(w, saved + [p], n) == EventsUpTo(w, saved, n)
    ensures EventsUpTo(w, saved + [p], |saved| + 1)
         == EventsUpTo(w, saved, |saved|) + [AuditEvent(w.d, Before(w, saved, |saved|), p, |saved| + 1, p.updatedAt)]
  {
    hide AuditEvent;
    var longer := saved + [p];
    forall i | 0 <= i < |saved| ensures EventOf(w, longer, i) == EventOf(w, saved, i) {
      assert longer[i] == saved[i];
      assert i > 0 ==> longer[i - 1] == saved[i - 1];
    }
  }

  /** Keeping the last of a sequence, one element at a time. */
  lemma LastOfLast<T>(s: seq<T>, x: T, n: nat)
    ensures Last(Last(s, n) + [x], n) == Last(s + [x], n)
  {
    var a, b := Last(s, n) + [x], s + [x];
    if |s| > n {
      assert Last(s, n) == s[|s| - n..];
      assert a == b[|s| - n..];
      assert Last(a, n) == a[1..];
      assert b[|s| - n..][1..] == b[|b| - n..];
    }
  }

  lemma InvAfterSave(w: World, state: State, step: Step)
    requires w.Lawful() && Inv(w, state) && StoredTime(w.env, step.now)
    ensures Inv(w, After(state, Save(w, state.file, step)))
  {
    hide NormalizeProgram, Program.ToJson, LoadsAsItself, StoredTime, EventsUpTo, LoadsOrNot, AuditEvent, SavesChained,
      Env.Lawful, Digests.Lawful, SaveCandidate, Load, Last;
    var outcome := Save(w, state.file, step);
    if outcome.Saved? {
      var p := outcome.program;
      var current := Load(w, step.loadIds, state.file).value;
      LoadedIsLast(w, state, step.loadIds);
      CandidateShape(w, step.ids, step.payload.fields, current, current.revision, step.now);
      SavedLoadsOrNot(w, step, current);
      ChainedOneMore(w, state.saved, p);
    }
  }

  lemma SavedLoadsOrNot(w: World, step: Step, current: Program)
    requires w.Lawful() && LoadsAsItself(w.env, current) && StoredTime(w.env, step.now) && step.payload.Obj?
    requires SaveCandidate(w, step.ids, step.payload.fields, current, current.revision, step.now).Some?
    ensures LoadsOrNot(w, SaveCandidate(w, step.ids, step.payload.fields, current, current.revision, step.now).value)
  {
    hide SaveCandidate, LoadsAsItself, StoredTime, Env.Lawful, Digests.Lawful, Load, Program.ToJson, ChangesOf;
    forall ids { SavedLoadsBack(w, step.ids, step.payload.fields, current, current.revision, step.now, ids); }
  }

  lemma ChainedOneMore(w: World, saved: seq<Program>, p: Program)
    requires SavesChained(w, saved)
    requires p.revision == |saved| + 1
    requires p.history == Last(Last(EventsUpTo(w, saved, |saved|), MAX_AUDIT_HISTORY)
      + [AuditEvent(w.d, Before(w, saved, |saved|), p, |saved| + 1, p.updatedAt)], MAX_AUDIT_HISTORY)
    ensures SavesChained(w, saved + [p])
  {
    hide AuditEvent, EventsUpTo, Last;
    LongerEvents(w, saved, p);
    LastOfLast(EventsUpTo(w, saved, |saved|), AuditEvent(w.d, Before(w, saved, |saved|), p, |saved| + 1,
        p.updatedAt), MAX_AUDIT_HISTORY);
  }

  lemma {:induction false} RunKeepsInv(w: World, steps: seq<Step>)
    requires w.Lawful() && ClocksOk(w, steps)
    ensures Inv(w, Run(w, steps))
  {
    hide Save, Inv, StoredTime, World.Lawful;
    if steps == [] {
      NothingSaved(w);
    } else {
      var front := steps[..|steps| - 1];
      assert forall step :: step in front ==> step in steps;
      RunKeepsInv(w, front);
      InvAfterSave(w, Run(w, front), steps[|steps| - 1]);
    }
  }

  lemma NothingSaved(w: World)
    ensures Inv(w, State(None, []))
  {
  }

  // ----- what a history says -----

  /** Consecutive revisions up to the last, each event's after digest the next one's before digest. */
  ghost predicate HistoryLinked(history: seq<Fields>, revision: nat) {
    && (forall k :: 0 <= k < |history| ==>
          TextAt(history[k], Event) == "workspace-updated" && Get(history[k], Revision,
              Null) == Int(revision - |history| + 1 + k))
    && (forall k :: 0 <= k < |history| - 1 ==> TextAt(history[k], AfterDigest) == TextAt(history[k + 1], BeforeDigest))
  }

  lemma EventParts(w: World, saved: seq<Program>, i: nat)
    requires i < |saved|
    ensures var e := EventOf(w, saved, i);
      && Get(e, Revision, Null) == Int(i + 1) && TextAt(e, Event) == "workspace-updated"
      && TextAt(e, BeforeDigest) == w.d.content(Before(w, saved, i))
      && TextAt(e, AfterDigest) == w.d.content(saved[i])
  {
    hide RenderAll, ChangesOf, Strs;
  }

  lemma KeptEvent(w: World, saved: seq<Program>, n: nat, keep: nat, k: nat)
    requires 0 < n <= |saved| && k < Min(n, keep)
    ensures var h := Last(EventsUpTo(w, saved, n), keep);
      && |h| == Min(n, keep)
      && Get(h[k], Revision, Null) == Int(n - |h| + 1 + k) && TextAt(h[k], Event) == "workspace-updated"
      && TextAt(h[k], AfterDigest) == w.d.content(saved[n - |h| + k])
      && TextAt(h[k], BeforeDigest) == w.d.content(Before(w, saved, n - |h| + k))
  {
    hide EventOf, TextAt, Before;
    var events := EventsUpTo(w, saved, n);
    var h := Last(events, keep);
    assert h[k] == events[n - |h| + k] == EventOf(w, saved, n - |h| + k);
    EventParts(w, saved, n - |h| + k);
  }

  lemma EventsAreLinked(w: World, saved: seq<Program>, n: nat, keep: nat)
    requires 0 < n <= |saved| && keep > 0
    ensures var h := Last(EventsUpTo(w, saved, n), keep);
      && |h| == Min(n, keep) && HistoryLinked(h, n)
      && TextAt(h[|h| - 1], AfterDigest) == w.d.content(saved[n - 1])
  {
    hide EventsUpTo, Last, TextAt;
    var h := Last(EventsUpTo(w, saved, n), keep);
    forall k | 0 <= k < Min(n, keep)
      ensures |h| == Min(n, keep)
      ensures Get(h[k], Revision, Null) == Int(n - |h| + 1 + k) && TextAt(h[k], Event) == "workspace-updated"
      ensures TextAt(h[k], AfterDigest) == w.d.content(saved[n - |h| + k])
      ensures TextAt(h[k], BeforeDigest) == w.d.content(Before(w, saved, n - |h| + k))
    {
      KeptEvent(w, saved, n, keep, k);
    }
  }

  /** In every run the saves that succeeded have revisions 1, 2, 3, ...; the file holds the last of
      them; and its history is the last hundred events, linked by digest and ending at its contents. */
  lemma EveryRunIsChained(w: World, steps: seq<Step>)
    requires w.Lawful() && ClocksOk(w, steps)
    ensures var state := Run(w, steps);
      && (forall i :: 0 <= i < |state.saved| ==> state.saved[i].revision == i + 1)
      && (state.saved == [] ==> state.file == None)
      && (state.saved != [] ==>
            var p := state.saved[|state.saved| - 1];
            && state.file == Some(p.ToJson())
            && |p.history| == Min(|state.saved|, MAX_AUDIT_HISTORY)
            && HistoryLinked(p.history, p.revision)
            && TextAt(p.history[|p.history| - 1], AfterDigest) == w.d.content(p))
  {
    hide Run, Program.ToJson, LoadsOrNot, EventsUpTo, World.Lawful, HistoryLinked, Last, TextAt;
    RunKeepsInv(w, steps);
    var state := Run(w, steps);
    if state.saved != [] {
      EventsAreLinked(w, state.saved, |state.saved|, MAX_AUDIT_HISTORY);
    }
  }

  /** A save succeeds only for the revision in force, the number of saves that succeeded before it. */
  lemma SuccessNeedsCurrentRevision(w: World, steps: seq<Step>, step: Step)
    requires w.Lawful() && ClocksOk(w, steps)
    requires Save(w, Run(w, steps).file, step).Saved?
    ensures ExpectedRevisionOf(step.payload) == Some(|Run(w, steps).saved|)
  {
    hide Run, Load, SaveCandidate, ExpectedRevisionOf, World.Lawful, LoadsAsItself, EventsUpTo, Inv;
    RunKeepsInv(w, steps);
    LoadedIsLast(w, Run(w, steps), step.loadIds);
  }

  lemma {:induction false} SavedOnlyGrows(w: World, steps: seq<Step>, n: nat)
    requires n <= |steps|
    ensures Run(w, steps[..n]).saved <= Run(w, steps).saved
  {
    hide Save;
    if n < |steps| {
      var front := steps[..|steps| - 1];
      SavedOnlyGrows(w, front, n);
      assert front[..n] == steps[..n];
    } else {
      assert steps[..n] == steps;
    }
  }

  /** Two saves that both succeed expected different revisions: at most one wins each revision. */
  lemma OneSuccessPerRevision(w: World, steps: seq<Step>, i: nat, j: nat)
    requires w.Lawful() && ClocksOk(w, steps) && i < j < |steps|
    requires Save(w, Run(w, steps[..i]).file, steps[i]).Saved?
    requires Save(w, Run(w, steps[..j]).file, steps[j]).Saved?
    ensures ExpectedRevisionOf(steps[i].payload) != ExpectedRevisionOf(steps[j].payload)
  {
    hide Save, ExpectedRevisionOf, World.Lawful, StoredTime;
    assert ClocksOk(w, steps[..i]) && ClocksOk(w, steps[..j]);
    SuccessNeedsCurrentRevision(w, steps[..i], steps[i]);
    SuccessNeedsCurrentRevision(w, steps[..j], steps[j]);
    assert steps[..i + 1][..i] == steps[..i] && steps[..i + 1][i] == steps[i];
    assert |Run(w, steps[..i + 1]).saved| == |Run(w, steps[..i]).saved| + 1;
    SavedOnlyGrows(w, steps[..j], i + 1);
    assert steps[..j][..i + 1] == steps[..i + 1];
  }

  /** Once the file holds a document that does not load, no save changes it. */
  lemma {:induction false} UnreadableFileStays(w: World, steps: seq<Step>, n: nat)
    requires w.Lawful() && ClocksOk(w, steps) && n <= |steps|
    requires forall ids :: Load(w, ids, Run(w, steps[..n]).file).None?
    ensures Run(w, steps) == Run(w, steps[..n])
  {
    hide Load, SaveCandidate, ExpectedRevisionOf, World.Lawful, StoredTime;
    if n < |steps| {
      var front := steps[..|steps| - 1];
      assert forall step :: step in front ==> step in steps;
      assert front[..n] == steps[..n];
      UnreadableFileStays(w, front, n);
    } else {
      assert steps[..n] == steps;
    }
  }

  // ----- every saved workspace is sound -----

  /** Whatever an intelligence record, its evidence and its entities refer to is there. */
  ghost predicate NothingDangling(p: Program) {
    forall r :: r in p.intelligence ==>
      && (forall id :: id in TextsAt(r, SourceIds) ==> HasId(p.sources, id))
      && (forall id :: id in TextsAt(r, RequirementIds) ==> HasId(p.requirements, id))
      && (forall id :: id in TextsAt(r, AffectedTechnologyIds) ==> HasId(p.technologies, id))
      && (forall e :: e in RecordsAt(r, Evidence) ==> HasId(p.sources, TextAt(e, SourceId)))
      && (forall e, id :: e in RecordsAt(r, Entities) && id in TextsAt(e, EvidenceIds) ==>
           HasId(RecordsAt(r, Evidence), id))
      && (forall e, id :: e in RecordsAt(r, Entities) && id in TextsAt(e, AffectedTechnologyIds) ==>
           HasId(p.technologies, id))
  }

  lemma NormalIsLinked(env: Env, p: Program)
    requires WellFormed(env, p)
    ensures NothingDangling(p)
  {
    hide StoredCollection, HasId, TextAt, TextsAt, RecordsAt;
    forall r | r in p.intelligence ensures Linked(p, r) {
      var i :| 0 <= i < |p.intelligence| && p.intelligence[i] == r;
    }
  }

  ghost predicate Sound(env: Env, p: Program) {
    WellFormed(env, p) && NothingDangling(p)
  }

  /** A document that loads is sound: every record in stored form and consistent, nothing twice, and no
      dangling reference. */
  lemma LoadedIsSound(w: World, ids: IdSource, file: File)
    requires w.Lawful()
    ensures Load(w, ids, file).Some? ==> Sound(w.env, Load(w, ids, file).value)
  {
    hide Load, ContentsFixed, LoadsAsItself, CarriesIdentifiers, NothingDangling, WellFormed, World.Lawful, Env.Lawful,
      HistoryOf;
    LawsOf(w);
    LoadsInStoredForm(w, ids, file);
    if Load(w, ids, file).Some? {
      var p := Load(w, ids, file).value;
      LoadedParts(w.env, p);
      FixedExactlyWhenWellFormed(w.env, p);
      NormalIsLinked(w.env, p);
    }
  }

  /** So is every document a run saves, whether or not it loads back. */
  lemma {:induction false} EverySavedDocumentIsSound(w: World, steps: seq<Step>)
    requires w.Lawful() && ClocksOk(w, steps)
    ensures forall i :: 0 <= i < |Run(w, steps).saved| ==> Sound(w.env, Run(w, steps).saved[i])
  {
    hide Save, Sound, World.Lawful, StoredTime;
    if steps != [] {
      var front, step := steps[..|steps| - 1], steps[|steps| - 1];
      assert forall s :: s in front ==> s in steps;
      EverySavedDocumentIsSound(w, front);
      RunKeepsInv(w, front);
      if Save(w, Run(w, front).file, step).Saved? { SavedIsSound(w, Run(w, front), step); }
    }
  }

  lemma SavedIsSound(w: World, state: State, step: Step)
    requires w.Lawful() && Inv(w, state) && Save(w, state.file, step).Saved?
    ensures Sound(w.env, Save(w, state.file, step).program)
  {
    hide Load, SaveCandidate, Inv, ContentsFixed, LoadsAsItself, WellFormed, NothingDangling, Env.Lawful,
      Digests.Lawful, EventsUpTo, AuditEvent;
    var p := Save(w, state.file, step).program;
    LoadedIsLast(w, state, step.loadIds);
    var current := Load(w, step.loadIds, state.file).value;
    CandidateShape(w, step.ids, step.payload.fields, current, current.revision, step.now);
    FixedExactlyWhenWellFormed(w.env, p);
    NormalIsLinked(w.env, p);
  }
}
