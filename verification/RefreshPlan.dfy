/** The source refresh plan: which evidence scaffolds get a new source_commit, and what is written. */
module RefreshPlan {
  import opened Text
  import opened Lines
  import opened Records

  const SOURCE_COMMIT := "source_commit"

  /** One scaffold file.  `added` are the fields that a refresh adds when the file lacks them. */
  datatype Candidate = Candidate(
    path: string,
    allowed: set<string>,
    placeholders: set<string>,
    nextText: string,
    added: seq<string>)

  datatype Write = Write(path: string, contents: string)
  datatype Skip = Skip(path: string, nonRefreshableFields: seq<string>)
  datatype Plan = Plan(writes: seq<Write>, skipped: seq<Skip>)

  /** What happens to one candidate; `Throws` when the generated workspace has no source_commit. */
  datatype Decision = Writes(write: Write) | Skips(skip: Skip) | Throws

  predicate Refreshable(c: Candidate, e: Entry) {
    e.value == "" || e.field in c.allowed || e.value in c.placeholders
  }

  /** `findNonRefreshableFields`. */
  function NonRefreshable(c: Candidate, entries: seq<Entry>): seq<string> {
    if entries == [] then []
    else (if Refreshable(c, entries[0]) then [] else [entries[0].field]) + NonRefreshable(c, entries[1..])
  }

  function MissingLines(fields: seq<string>, current: seq<Entry>, next: seq<Entry>): seq<string> {
    if fields == [] then []
    else
      MissingLines(fields[..|fields| - 1], current, next)
      + MissingLine(fields[|fields| - 1], current, next)
  }

  function MissingLine(field: string, current: seq<Entry>, next: seq<Entry>): seq<string> {
    if FirstValue(current, field).Some? || FirstValue(next, field).None? then []
    else [Assignment(field, FirstValue(next, field).value)]
  }

  /** `addMissingRecordFields`. */
  method AddMissingRecordFields(fields: seq<string>, nextText: string, text: string) returns (r: string)
    ensures r == WithMissing(fields, nextText, text)
  {
    hide Split, Join, Entries;
    var currentFields := ParseRecordFields(text);
    var nextFields := ParseRecordFields(nextText);
    var lines := Split(text);
    assert fields[..0] == [];
    for i := 0 to |fields|
      invariant lines == Split(text) + MissingLines(fields[..i], currentFields, nextFields)
    {
      assert fields[..i + 1][..i] == fields[..i];
      var nextValue := FirstValue(nextFields, fields[i]);
      if FirstValue(currentFields, fields[i]).Some? || nextValue.None? {
        assert MissingLines(fields[..i], currentFields, nextFields) + [] == MissingLines(fields[..i], currentFields, nextFields);
        continue;
      }
      lines := lines + [Assignment(fields[i], nextValue.value)];
    }
    assert fields[..|fields|] == fields;
    r := Join(lines);
  }

  function WithMissing(fields: seq<string>, nextText: string, text: string): string {
    Join(Split(text) + MissingLines(fields, ParseRecordFields(text), ParseRecordFields(nextText)))
  }

  /** The contents a refresh writes over previous. */
  function Contents(c: Candidate, commit: string, previous: string): string {
    var refreshed := Replaced(previous, SOURCE_COMMIT, commit);
    if c.added == [] then refreshed else WithMissing(c.added, c.nextText, refreshed)
  }

  function DisplayPath(path: string): string {
    if path == "" then "" else [if path[0] == '\\' then '/' else path[0]] + DisplayPath(path[1..])
  }

  function Decide(c: Candidate, files: map<string, string>): Decision {
    if c.path !in files then Skips(Skip(DisplayPath(c.path), []))
    else
      var fields := NonRefreshable(c, ParseRecordFields(files[c.path]));
      if fields != [] then Skips(Skip(DisplayPath(c.path), fields))
      else match FirstValue(ParseRecordFields(c.nextText), SOURCE_COMMIT)
        case None => Throws
        case Some(commit) =>
          if commit == "" then Throws
          else Writes(Write(c.path, Contents(c, commit, files[c.path])))
  }

  function PlanOf(candidates: seq<Candidate>, files: map<string, string>): Option<Plan> {
    if candidates == [] then Some(Plan([], []))
    else match PlanOf(candidates[..|candidates| - 1], files)
      case None => None
      case Some(p) => Extend(p, Decide(candidates[|candidates| - 1], files))
  }

  function Extend(p: Plan, d: Decision): Option<Plan> {
    match d
    case Writes(w) => Some(Plan(p.writes + [w], p.skipped))
    case Skips(s) => Some(Plan(p.writes, p.skipped + [s]))
    case Throws => None
  }

  /** `createProductEvidenceSourceRefreshPlan` over its candidates; None where the source throws. */
  method CreateSourceRefreshPlan(candidates: seq<Candidate>, files: map<string, string>) returns (plan: Option<Plan>)
    ensures plan == PlanOf(candidates, files)
    ensures PlanFollows(candidates, files, plan)
  {
    hide NonRefreshable, ParseRecordFields, FirstValue, Contents, PlanFollows;
    PlanIsFollowed(candidates, files);
    var writes: seq<Write> := [];
    var skipped: seq<Skip> := [];
    for i := 0 to |candidates|
      invariant PlanOf(candidates[..i], files) == Some(Plan(writes, skipped))
    {
      var candidate := candidates[i];
      assert candidates[..i + 1][..i] == candidates[..i];
      if candidate.path !in files {
        skipped := skipped + [Skip(DisplayPath(candidate.path), [])];
        continue;
      }
      var previousText := files[candidate.path];
      var nonRefreshableFields := NonRefreshable(candidate, ParseRecordFields(previousText));
      if nonRefreshableFields != [] {
        skipped := skipped + [Skip(DisplayPath(candidate.path), nonRefreshableFields)];
        continue;
      }
      var commit := FirstValue(ParseRecordFields(candidate.nextText), SOURCE_COMMIT);
      if commit.None? || commit.value == "" {
        ThrowStops(candidates, i + 1, files);
        return None;
      }
      writes := writes + [Write(candidate.path, Contents(candidate, commit.value, previousText))];
    }
    assert candidates[..|candidates|] == candidates;
    plan := Some(Plan(writes, skipped));
  }

  lemma {:induction false} ThrowStops(candidates: seq<Candidate>, i: nat, files: map<string, string>)
    requires i <= |candidates| && PlanOf(candidates[..i], files).None?
    ensures PlanOf(candidates, files).None?
    decreases |candidates| - i
  {
    hide Decide;
    if i == |candidates| {
      assert candidates[..i] == candidates;
    } else {
      assert candidates[..i + 1][..i] == candidates[..i];
      ThrowStops(candidates, i + 1, files);
    }
  }

  // --- the plan, by the texts alone --------------------------------------------------------------------------

  /** An entry that is empty, of an allowed field, or a placeholder. */
  predicate MayGo(allowed: set<string>, placeholders: set<string>, e: Entry) {
    e.value == "" || e.field in allowed || e.value in placeholders
  }

  function Others(c: Candidate, entries: seq<Entry>): (r: seq<bool>)
    ensures |r| == |entries| && forall i | 0 <= i < |r| :: r[i] == !MayGo(c.allowed, c.placeholders, entries[i])
  {
    seq(|entries|, i requires 0 <= i < |entries| => !MayGo(c.allowed, c.placeholders, entries[i]))
  }

  /** The file exists, and every entry of it may go. */
  predicate HoldsNothing(c: Candidate, files: map<string, string>) {
    && c.path in files
    && var entries := ParseRecordFields(files[c.path]);
       forall i | 0 <= i < |entries| :: MayGo(c.allowed, c.placeholders, entries[i])
  }

  /** The first source_commit entry of a generated text, if it is not empty. */
  ghost predicate Commits(nextText: string, commit: string) {
    var entries := ParseRecordFields(nextText);
    && commit != ""
    && exists i | 0 <= i < |entries| ::
         entries[i] == Entry("source_commit", commit) && forall j | 0 <= j < i :: entries[j].field != "source_commit"
  }

  /** What a refresh writes over a text: each field keeps its first value but source_commit, and the added
      fields that were missing have their generated ones. */
  predicate Refreshes(c: Candidate, commit: string, previous: string, contents: string) {
    forall e <- ParseRecordFields(contents) + ParseRecordFields(previous) + ParseRecordFields(c.nextText) ::
      var was, generated := FirstValue(ParseRecordFields(previous), e.field), FirstValue(ParseRecordFields(c.nextText), e.field);
      FirstValue(ParseRecordFields(contents), e.field) ==
        if e.field == "source_commit" then Some(commit)
        else if was.Some? then was
        else if e.field in c.added then generated
        else None
  }

  ghost predicate WriteFollows(c: Candidate, files: map<string, string>, w: Write) {
    && w.path == c.path && c.path in files
    && exists commit :: Commits(c.nextText, commit) && (!StrayCr(files[c.path]) ==> Refreshes(c, commit, files[c.path], w.contents))
  }

  /** The fields of the other entries, in order. */
  ghost predicate ListsOthers(c: Candidate, entries: seq<Entry>, fields: seq<string>) {
    exists at :: Picks(at, Others(c, entries)) && |at| == |fields| && forall k | 0 <= k < |at| :: fields[k] == entries[at[k]].field
  }

  ghost predicate SkipFollows(c: Candidate, files: map<string, string>, s: Skip) {
    && |s.path| == |c.path| && (forall i | 0 <= i < |s.path| :: s.path[i] == if c.path[i] == '\\' then '/' else c.path[i])
    && if c.path in files then ListsOthers(c, ParseRecordFields(files[c.path]), s.nonRefreshableFields)
       else s.nonRefreshableFields == []
  }

  function Nothings(candidates: seq<Candidate>, files: map<string, string>): (r: seq<bool>)
    ensures |r| == |candidates| && forall i | 0 <= i < |r| :: r[i] == HoldsNothing(candidates[i], files)
  {
    seq(|candidates|, i requires 0 <= i < |candidates| => HoldsNothing(candidates[i], files))
  }

  function Somethings(candidates: seq<Candidate>, files: map<string, string>): (r: seq<bool>)
    ensures |r| == |candidates| && forall i | 0 <= i < |r| :: r[i] == !HoldsNothing(candidates[i], files)
  {
    seq(|candidates|, i requires 0 <= i < |candidates| => !HoldsNothing(candidates[i], files))
  }

  /** The writes are those of the candidates that hold nothing, in order. */
  ghost predicate SortedWrites(candidates: seq<Candidate>, files: map<string, string>, writes: seq<Write>, ws: seq<nat>) {
    && Picks(ws, Nothings(candidates, files)) && |ws| == |writes|
    && forall k | 0 <= k < |ws| :: WriteFollows(candidates[ws[k]], files, writes[k])
  }

  /** The skips are those of the others, in order. */
  ghost predicate SortedSkips(candidates: seq<Candidate>, files: map<string, string>, skipped: seq<Skip>, ss: seq<nat>) {
    && Picks(ss, Somethings(candidates, files)) && |ss| == |skipped|
    && forall k | 0 <= k < |ss| :: SkipFollows(candidates[ss[k]], files, skipped[k])
  }

  ghost predicate Sorted(candidates: seq<Candidate>, files: map<string, string>, p: Plan, ws: seq<nat>, ss: seq<nat>) {
    SortedWrites(candidates, files, p.writes, ws) && SortedSkips(candidates, files, p.skipped, ss)
  }

  /** A candidate that holds nothing, but whose generated text has no source_commit. */
  ghost predicate Stuck(c: Candidate, files: map<string, string>) {
    HoldsNothing(c, files) && forall commit :: !Commits(c.nextText, commit)
  }

  /** There is no plan exactly when some candidate is stuck; every other plan sorts the candidates. */
  ghost predicate PlanFollows(candidates: seq<Candidate>, files: map<string, string>, plan: Option<Plan>) {
    && (plan.None? <==> exists i | 0 <= i < |candidates| :: Stuck(candidates[i], files))
    && (plan.Some? ==> exists ws, ss :: Sorted(candidates, files, plan.value, ws, ss))
  }

  lemma {:induction false} NonRefreshableAppend(c: Candidate, entries: seq<Entry>, e: Entry)
    ensures NonRefreshable(c, entries + [e]) == NonRefreshable(c, entries) + if Refreshable(c, e) then [] else [e.field]
  {
    hide Refreshable;
    if entries == [] {
      assert entries + [e] == [e] && [e][1..] == [];
    } else {
      assert (entries + [e])[1..] == entries[1..] + [e];
      NonRefreshableAppend(c, entries[1..], e);
    }
  }

  lemma {:induction false} NonRefreshablePicks(c: Candidate, entries: seq<Entry>) returns (at: seq<nat>)
    ensures Picks(at, Others(c, entries)) && |at| == |NonRefreshable(c, entries)|
    ensures forall k | 0 <= k < |at| :: NonRefreshable(c, entries)[k] == entries[at[k]].field
  {
    hide Picks;
    if entries == [] {
      at := [];
      NothingPicked(Others(c, entries));
    } else {
      var init, last := entries[..|entries| - 1], entries[|entries| - 1];
      at := NonRefreshablePicks(c, init);
      NonRefreshableAppend(c, init, last);
      assert entries == init + [last];
      PicksAppend(at, Others(c, init), !MayGo(c.allowed, c.placeholders, last));
      assert Others(c, entries) == Others(c, init) + [!MayGo(c.allowed, c.placeholders, last)];
      PicksAre(at, Others(c, init));
      at := if MayGo(c.allowed, c.placeholders, last) then at else at + [|init|];
    }
  }

  lemma HoldsNothingIff(c: Candidate, files: map<string, string>)
    requires c.path in files
    ensures HoldsNothing(c, files) <==> NonRefreshable(c, ParseRecordFields(files[c.path])) == []
  {
    hide ParseRecordFields, NonRefreshable;
    NonRefreshableIff(c, ParseRecordFields(files[c.path]));
  }

  lemma {:induction false} FirstIsAt(entries: seq<Entry>, field: string) returns (i: nat)
    requires FirstValue(entries, field).Some?
    ensures i < |entries| && entries[i] == Entry(field, FirstValue(entries, field).value)
    ensures forall j | 0 <= j < i :: entries[j].field != field
  {
    if entries[0].field == field {
      i := 0;
    } else {
      i := FirstIsAt(entries[1..], field);
      i := i + 1;
    }
  }

  lemma {:induction false} FirstIs(entries: seq<Entry>, i: nat)
    requires i < |entries| && forall j | 0 <= j < i :: entries[j].field != entries[i].field
    ensures FirstValue(entries, entries[i].field) == Some(entries[i].value)
  {
    if i > 0 {
      assert forall j | 0 <= j < i - 1 :: entries[1..][j] == entries[j + 1];
      FirstIs(entries[1..], i - 1);
    }
  }

  lemma CommitsIff(nextText: string, commit: string)
    ensures Commits(nextText, commit) <==> commit != "" && FirstValue(ParseRecordFields(nextText), SOURCE_COMMIT) == Some(commit)
  {
    hide ParseRecordFields, FirstValue;
    var entries := ParseRecordFields(nextText);
    if Commits(nextText, commit) {
      var i :| 0 <= i < |entries| && entries[i] == Entry("source_commit", commit) && forall j | 0 <= j < i :: entries[j].field != "source_commit";
      FirstIs(entries, i);
    }
    if commit != "" && FirstValue(entries, SOURCE_COMMIT) == Some(commit) {
      var i := FirstIsAt(entries, SOURCE_COMMIT);
      assert entries[i] == Entry("source_commit", commit);
    }
  }

  lemma {:induction false} FirstOfUpdated(entries: seq<Entry>, field: string, value: string, other: string)
    requires other != field
    ensures FirstValue(Updated(entries, field, value), other) == FirstValue(entries, other)
  {
    var changed := UpdatedInPlace(entries, field, value);
    FirstOfChanged(entries, field, value, other);
    if FirstValue(entries, field).None? {
      FirstValueConcat(changed, [Entry(field, value)], other);
      assert [Entry(field, value)][1..] == [];
    } else {
      assert changed + [] == changed;
    }
  }

  lemma {:induction false} FirstOfChanged(entries: seq<Entry>, field: string, value: string, other: string)
    requires other != field
    ensures FirstValue(UpdatedInPlace(entries, field, value), other) == FirstValue(entries, other)
  {
    if entries != [] {
      assert UpdatedInPlace(entries, field, value)[1..] == UpdatedInPlace(entries[1..], field, value);
      FirstOfChanged(entries[1..], field, value, other);
    }
  }

  lemma {:induction false} FirstOfMissing(fields: seq<string>, current: seq<Entry>, next: seq<Entry>, field: string)
    ensures FirstValue(MissingEntries(fields, current, next), field) ==
            if FirstValue(current, field).None? && field in fields then FirstValue(next, field) else None
  {
    if fields != [] {
      var init, last := fields[..|fields| - 1], fields[|fields| - 1];
      assert fields == init + [last];
      FirstOfMissing(init, current, next, field);
      var more := MissingEntries(init, current, next);
      if FirstValue(current, last).None? && FirstValue(next, last).Some? {
        FirstValueAppend(more, Entry(last, FirstValue(next, last).value), field);
      } else {
        assert more + [] == more;
      }
    }
  }

  lemma {:induction false} ContentsRefresh(c: Candidate, commit: string, previous: string)
    requires !StrayCr(previous) && FirstValue(ParseRecordFields(c.nextText), SOURCE_COMMIT) == Some(commit)
    ensures Refreshes(c, commit, previous, Contents(c, commit, previous))
  {
    hide EntryOf, Split, Entries, Contents, Updated, FirstValue, MissingEntries;
    ReadValueIsClean(Split(c.nextText), SOURCE_COMMIT);
    RefreshChangesOnlySourceCommit(c, commit, previous);
    var was, next := ParseRecordFields(previous), ParseRecordFields(c.nextText);
    var updated := Updated(was, SOURCE_COMMIT, commit);
    var more := if c.added == [] then [] else MissingEntries(c.added, updated, next);
    forall field: string
      ensures FirstValue(ParseRecordFields(Contents(c, commit, previous)), field) ==
                if field == "source_commit" then Some(commit)
                else if FirstValue(was, field).Some? then FirstValue(was, field)
                else if field in c.added then FirstValue(next, field)
                else None
    {
      FirstValueConcat(updated, more, field);
      NoneMissing(field);
      if c.added != [] { FirstOfMissing(c.added, updated, next, field); }
      if field == SOURCE_COMMIT {
        ReadersAgree(was, SOURCE_COMMIT, commit);
      } else {
        FirstOfUpdated(was, SOURCE_COMMIT, commit, field);
      }
    }
  }

  lemma NoneMissing(field: string)
    ensures FirstValue([], field).None?
  {
  }

  lemma {:induction false} DisplayIs(path: string)
    ensures |DisplayPath(path)| == |path|
    ensures forall i | 0 <= i < |path| :: DisplayPath(path)[i] == if path[i] == '\\' then '/' else path[i]
  {
    if path != "" { DisplayIs(path[1..]); }
  }

  lemma {:induction false} DecisionFollows(c: Candidate, files: map<string, string>)
    ensures match Decide(c, files)
            case Writes(w) => HoldsNothing(c, files) && WriteFollows(c, files, w)
            case Skips(s) => !HoldsNothing(c, files) && SkipFollows(c, files, s)
            case Throws => Stuck(c, files)
    ensures Decide(c, files).Throws? <==> Stuck(c, files)
  {
    hide ParseRecordFields, NonRefreshable, FirstValue, Contents, DisplayPath, Commits, HoldsNothing, Picks, Refreshes, StrayCr;
    DisplayIs(c.path);
    if c.path !in files {
      MissingHoldsSomething(c, files);
    } else {
      HoldsNothingIff(c, files);
      var at := NonRefreshablePicks(c, ParseRecordFields(files[c.path]));
      forall commit ensures Commits(c.nextText, commit) <==>
          commit != "" && FirstValue(ParseRecordFields(c.nextText), SOURCE_COMMIT) == Some(commit) {
        CommitsIff(c.nextText, commit);
      }
      var commit := FirstValue(ParseRecordFields(c.nextText), SOURCE_COMMIT);
      if commit.Some? && commit.value != "" {
        assert Commits(c.nextText, commit.value);
        if !StrayCr(files[c.path]) { ContentsRefresh(c, commit.value, files[c.path]); }
      }
    }
  }

  lemma MissingHoldsSomething(c: Candidate, files: map<string, string>)
    requires c.path !in files
    ensures !HoldsNothing(c, files)
  {
  }

  lemma {:induction false} WritesAppend(candidates: seq<Candidate>, last: Candidate, files: map<string, string>,
                                       writes: seq<Write>, ws: seq<nat>, w: Write)
    requires SortedWrites(candidates, files, writes, ws)
    ensures !HoldsNothing(last, files) ==> SortedWrites(candidates + [last], files, writes, ws)
    ensures HoldsNothing(last, files) && WriteFollows(last, files, w) ==>
              SortedWrites(candidates + [last], files, writes + [w], ws + [|candidates|])
  {
    hide Picks, WriteFollows, HoldsNothing;
    PicksAre(ws, Nothings(candidates, files));
    PicksAppend(ws, Nothings(candidates, files), HoldsNothing(last, files));
    assert Nothings(candidates + [last], files) == Nothings(candidates, files) + [HoldsNothing(last, files)];
  }

  lemma {:induction false} SkipsAppend(candidates: seq<Candidate>, last: Candidate, files: map<string, string>,
                                      skipped: seq<Skip>, ss: seq<nat>, s: Skip)
    requires SortedSkips(candidates, files, skipped, ss)
    ensures HoldsNothing(last, files) ==> SortedSkips(candidates + [last], files, skipped, ss)
    ensures !HoldsNothing(last, files) && SkipFollows(last, files, s) ==>
              SortedSkips(candidates + [last], files, skipped + [s], ss + [|candidates|])
  {
    hide Picks, SkipFollows, HoldsNothing;
    PicksAre(ss, Somethings(candidates, files));
    PicksAppend(ss, Somethings(candidates, files), !HoldsNothing(last, files));
    assert Somethings(candidates + [last], files) == Somethings(candidates, files) + [!HoldsNothing(last, files)];
  }

  /** The plan with one candidate more. */
  lemma {:induction false} OneSorted(init: seq<Candidate>, last: Candidate, files: map<string, string>, p: Plan, q: Plan,
                                     ws: seq<nat>, ss: seq<nat>)
    returns (ws': seq<nat>, ss': seq<nat>)
    requires Sorted(init, files, p, ws, ss)
    requires match Decide(last, files)
             case Writes(w) => q == Plan(p.writes + [w], p.skipped)
             case Skips(s) => q == Plan(p.writes, p.skipped + [s])
             case Throws => false
    ensures Sorted(init + [last], files, q, ws', ss') && !Stuck(last, files)
  {
    hide Decide, SortedWrites, SortedSkips, WriteFollows, SkipFollows, HoldsNothing, Stuck;
    DecisionFollows(last, files);
    var any, none := Write("", ""), Skip("", []);
    match Decide(last, files)
    case Writes(w) =>
      WritesAppend(init, last, files, p.writes, ws, w);
      SkipsAppend(init, last, files, p.skipped, ss, none);
      ws', ss' := ws + [|init|], ss;
    case Skips(s) =>
      WritesAppend(init, last, files, p.writes, ws, any);
      SkipsAppend(init, last, files, p.skipped, ss, s);
      ws', ss' := ws, ss + [|init|];
  }

  lemma {:induction false} PlanSorts(candidates: seq<Candidate>, files: map<string, string>) returns (ws: seq<nat>, ss: seq<nat>)
    requires PlanOf(candidates, files).Some?
    ensures Sorted(candidates, files, PlanOf(candidates, files).value, ws, ss)
    ensures forall i | 0 <= i < |candidates| :: !Stuck(candidates[i], files)
  {
    hide Decide, Sorted, Stuck;
    if candidates == [] {
      ws, ss := [], [];
      NothingSorted(files);
    } else {
      var init, last := candidates[..|candidates| - 1], candidates[|candidates| - 1];
      assert candidates == init + [last];
      ws, ss := PlanSorts(init, files);
      ws, ss := OneSorted(init, last, files, PlanOf(init, files).value, PlanOf(candidates, files).value, ws, ss);
    }
  }

  lemma NothingSorted(files: map<string, string>)
    ensures Sorted([], files, Plan([], []), [], [])
  {
    NothingPicked(Nothings([], files));
    NothingPicked(Somethings([], files));
  }

  lemma {:induction false} NoPlanIsStuck(candidates: seq<Candidate>, files: map<string, string>)
    requires PlanOf(candidates, files).None?
    ensures exists i | 0 <= i < |candidates| :: Stuck(candidates[i], files)
  {
    hide Decide, Stuck;
    var init, last := candidates[..|candidates| - 1], candidates[|candidates| - 1];
    DecisionFollows(last, files);
    if PlanOf(init, files).None? {
      NoPlanIsStuck(init, files);
      var i :| 0 <= i < |init| && Stuck(init[i], files);
      assert Stuck(candidates[i], files);
    } else {
      assert Stuck(candidates[|candidates| - 1], files);
    }
  }

  lemma {:induction false} PlanIsFollowed(candidates: seq<Candidate>, files: map<string, string>)
    ensures PlanFollows(candidates, files, PlanOf(candidates, files))
  {
    hide PlanOf, Sorted, Stuck;
    if PlanOf(candidates, files).None? {
      NoPlanIsStuck(candidates, files);
    } else {
      var ws, ss := PlanSorts(candidates, files);
    }
  }

  /** In a plan over distinct paths, a candidate is written if and only if its file exists and every entry of
      it is empty, of an allowed field, or a placeholder. */
  lemma {:induction false} WrittenIff(candidates: seq<Candidate>, files: map<string, string>, plan: Plan, i: nat)
    requires PlanFollows(candidates, files, Some(plan)) && i < |candidates|
    requires forall j, k | 0 <= j < k < |candidates| :: candidates[j].path != candidates[k].path
    ensures IsWritten(plan, candidates[i].path) <==> HoldsNothing(candidates[i], files)
  {
    hide HoldsNothing, SortedSkips, ParseRecordFields, Refreshes, Commits, Picks;
    var ws, ss :| Sorted(candidates, files, plan, ws, ss);
    PicksAre(ws, Nothings(candidates, files));
    if HoldsNothing(candidates[i], files) {
      assert Nothings(candidates, files)[i];
      var k :| 0 <= k < |ws| && ws[k] == i;
      assert WriteFollows(candidates[ws[k]], files, plan.writes[k]);
      assert plan.writes[k].path == candidates[i].path;
    }
    if IsWritten(plan, candidates[i].path) {
      var k :| 0 <= k < |plan.writes| && plan.writes[k].path == candidates[i].path;
      assert WriteFollows(candidates[ws[k]], files, plan.writes[k]);
      SameIndex(candidates, ws[k], i);
    }
  }

  lemma SameIndex(candidates: seq<Candidate>, i: nat, j: nat)
    requires forall j, k | 0 <= j < k < |candidates| :: candidates[j].path != candidates[k].path
    requires i < |candidates| && j < |candidates| && candidates[i].path == candidates[j].path
    ensures i == j
  {
  }

  // --- exactly one of writes and skipped ---------------------------------------------------------

  predicate DistinctPaths(candidates: seq<Candidate>) {
    forall i, j | 0 <= i < j < |candidates| :: DisplayPath(candidates[i].path) != DisplayPath(candidates[j].path)
  }

  predicate IsWritten(p: Plan, path: string) {
    exists k | 0 <= k < |p.writes| :: p.writes[k].path == path
  }

  predicate IsSkipped(p: Plan, path: string) {
    exists k | 0 <= k < |p.skipped| :: p.skipped[k].path == DisplayPath(path)
  }

  /** The plan is its candidates' decisions: each write and each skip is one of them, and each of them
      is there. */
  lemma {:induction false} PlanIsDecisions(candidates: seq<Candidate>, files: map<string, string>)
    requires PlanOf(candidates, files).Some?
    ensures var p := PlanOf(candidates, files).value;
            && |p.writes| + |p.skipped| == |candidates|
            && (forall w <- p.writes :: exists c <- candidates :: Decide(c, files) == Writes(w))
            && (forall s <- p.skipped :: exists c <- candidates :: Decide(c, files) == Skips(s))
            && (forall c <- candidates :: Decide(c, files).Writes? ==> Decide(c, files).write in p.writes)
            && (forall c <- candidates :: Decide(c, files).Skips? ==> Decide(c, files).skip in p.skipped)
            && (forall c <- candidates :: !Decide(c, files).Throws?)
  {
    hide Decide;
    if candidates != [] {
      var init, last := candidates[..|candidates| - 1], candidates[|candidates| - 1];
      PlanIsDecisions(init, files);
      assert candidates == init + [last];
      assert forall c <- candidates :: c in init || c == last;
      assert forall c <- init :: c in candidates;
      assert last in candidates;
    }
  }

  lemma {:induction false} DecisionPath(c: Candidate, files: map<string, string>)
    ensures Decide(c, files).Writes? ==> Decide(c, files).write.path == c.path
    ensures Decide(c, files).Skips? ==> Decide(c, files).skip.path == DisplayPath(c.path)
  {
  }

  /** Every candidate is written or skipped, and not both. */
  lemma {:induction false} ExactlyOne(candidates: seq<Candidate>, files: map<string, string>, i: nat)
    requires PlanOf(candidates, files).Some? && DistinctPaths(candidates) && i < |candidates|
    ensures var p := PlanOf(candidates, files).value;
            IsWritten(p, candidates[i].path) <==> !IsSkipped(p, candidates[i].path)
  {
    hide Decide, PlanOf;
    var p := PlanOf(candidates, files).value;
    var c := candidates[i];
    PlanIsDecisions(candidates, files);
    assert c in candidates;
    DecisionPath(c, files);
    if Decide(c, files).Writes? {
      var k :| 0 <= k < |p.writes| && p.writes[k] == Decide(c, files).write;
      assert p.writes[k].path == c.path;
      if IsSkipped(p, c.path) {
        var m :| 0 <= m < |p.skipped| && p.skipped[m].path == DisplayPath(c.path);
        assert p.skipped[m] in p.skipped;
        var d :| d in candidates && Decide(d, files) == Skips(p.skipped[m]);
        DecisionPath(d, files);
        SamePath(candidates, c, d);
      }
    } else {
      var k :| 0 <= k < |p.skipped| && p.skipped[k] == Decide(c, files).skip;
      assert p.skipped[k].path == DisplayPath(c.path);
      if IsWritten(p, c.path) {
        var m :| 0 <= m < |p.writes| && p.writes[m].path == c.path;
        assert p.writes[m] in p.writes;
        var d :| d in candidates && Decide(d, files) == Writes(p.writes[m]);
        DecisionPath(d, files);
        SamePath(candidates, c, d);
      }
    }
  }

  lemma {:induction false} SamePath(candidates: seq<Candidate>, c: Candidate, d: Candidate)
    requires DistinctPaths(candidates) && c in candidates && d in candidates
    requires DisplayPath(c.path) == DisplayPath(d.path)
    ensures c == d
  {
    var i :| 0 <= i < |candidates| && candidates[i] == c;
    var j :| 0 <= j < |candidates| && candidates[j] == d;
    if i < j { } else if j < i { assert DisplayPath(candidates[j].path) != DisplayPath(candidates[i].path); }
  }

  // --- what is written -----------------------------------------------------------------------------

  lemma {:induction false} NonRefreshableIff(c: Candidate, entries: seq<Entry>)
    ensures NonRefreshable(c, entries) == [] <==> forall i | 0 <= i < |entries| :: Refreshable(c, entries[i])
  {
    if entries != [] {
      NonRefreshableIff(c, entries[1..]);
      if forall i | 0 <= i < |entries[1..]| :: Refreshable(c, entries[1..][i]) {
        assert forall i | 1 <= i < |entries| :: entries[i] == entries[1..][i - 1];
      }
      if forall i | 0 <= i < |entries| :: Refreshable(c, entries[i]) {
        assert forall i | 0 <= i < |entries[1..]| :: entries[1..][i] == entries[i + 1];
      }
    }
  }

  /** Nothing that holds evidence is overwritten: every entry of a written file was empty, of an allowed
      field, or a placeholder. */
  lemma {:induction false} OnlyScaffoldsAreWritten(candidates: seq<Candidate>, files: map<string, string>, w: Write)
    requires PlanOf(candidates, files).Some? && w in PlanOf(candidates, files).value.writes
    ensures exists c <- candidates ::
              && c.path == w.path && c.path in files
              && forall e <- ParseRecordFields(files[c.path]) :: Refreshable(c, e)
  {
    hide PlanOf, ParseRecordFields, NonRefreshable;
    PlanIsDecisions(candidates, files);
    var c :| c in candidates && Decide(c, files) == Writes(w);
    NonRefreshableIff(c, ParseRecordFields(files[c.path]));
  }

  /** A field name and value as the record readers return them. */
  predicate Clean(value: string) {
    NoTerminator(value) && Trimmed(value)
  }

  lemma {:induction false} EntryIsClean(line: string)
    ensures EntryOf(line).Some? ==> Clean(EntryOf(line).value.value)
  {
    hide Trim, TrimStart;
    if EntryOf(line).Some? {
      var k := NameRun(line);
      TrimKeepsClean(TrimStart(line[k + 1..]));
    }
  }

  lemma {:induction false} TrimKeepsClean(s: string)
    requires NoTerminator(s)
    ensures Clean(Trim(s))
  {
    TrimIsTrimmed(s);
    TrimStartIs(s);
    var a := TrimStart(s);
    TrimEndIs(a);
    assert forall i | 0 <= i < |a| :: a[i] == s[|s| - |a| + i];
    assert forall i | 0 <= i < |TrimEnd(a)| :: TrimEnd(a)[i] == a[i];
  }

  lemma {:induction false} ReadValueIsClean(lines: seq<string>, field: string)
    ensures FirstValue(Entries(lines), field).Some? ==> Clean(FirstValue(Entries(lines), field).value)
    ensures FirstValue(Entries(lines), field).Some? ==> IsFieldName(field)
  {
    hide EntryOf;
    if lines != [] {
      ReadValueIsClean(lines[1..], field);
      EntryIsClean(lines[0]);
      match EntryOf(lines[0])
      case None =>
        assert Entries(lines) == Entries(lines[1..]);
      case Some(e) =>
        assert Entries(lines)[0] == e && Entries(lines)[1..] == Entries(lines[1..]);
        EntryFieldIsName(lines[0]);
    }
  }

  lemma {:induction false} EntryFieldIsName(line: string)
    ensures EntryOf(line).Some? ==> IsFieldName(EntryOf(line).value.field)
  {
  }

  /** The entries a refresh appends. */
  function MissingEntries(fields: seq<string>, current: seq<Entry>, next: seq<Entry>): seq<Entry> {
    if fields == [] then []
    else
      MissingEntries(fields[..|fields| - 1], current, next) +
      var field := fields[|fields| - 1];
      if FirstValue(current, field).Some? || FirstValue(next, field).None? then []
      else [Entry(field, FirstValue(next, field).value)]
  }

  lemma {:induction false} MissingLinesAre(fields: seq<string>, current: seq<Entry>, nextText: string)
    ensures var lines := MissingLines(fields, current, ParseRecordFields(nextText));
            && Entries(lines) == MissingEntries(fields, current, ParseRecordFields(nextText))
            && AllLines(lines)
            && forall i | 0 <= i < |lines| :: '\r' !in lines[i]
  {
    hide EntryOf, Split;
    if fields != [] {
      var next := ParseRecordFields(nextText);
      var init, field := fields[..|fields| - 1], fields[|fields| - 1];
      MissingLinesAre(init, current, nextText);
      var line := MissingLine(field, current, next);
      EntriesConcat(MissingLines(init, current, next), line);
      if line != [] {
        var value := FirstValue(next, field).value;
        ReadValueIsClean(Split(nextText), field);
        AssignmentEntry(field, value);
        TrimOfTrimmed(value);
        AssignmentChars(field, value);
        assert Entries(line) == [Entry(field, value)];
      }
    }
  }

  lemma {:induction false} AssignmentChars(field: string, value: string)
    requires IsFieldName(field) && NoTerminator(value)
    ensures IsLine(Assignment(field, value)) && '\r' !in Assignment(field, value)
  {
    var a := Assignment(field, value);
    forall i | 0 <= i < |a|
      ensures a[i] != '\n' && a[i] != '\r'
    {
      assert a[i] == (if i < |field| then field[i] else if i < |field| + 2 then ": "[i - |field|] else value[i - |field| - 2]);
    }
  }

  /** The lines of a text after a refresh, when carriage returns only stand in single CRLFs. */
  function RefreshedLines(c: Candidate, commit: string, previous: string): seq<string> {
    var lines := ReplacedLines(Split(previous), SOURCE_COMMIT, commit);
    lines + if c.added == [] then [] else MissingLines(c.added, Entries(lines), ParseRecordFields(c.nextText))
  }

  predicate NoCr(lines: seq<string>) {
    forall i | 0 <= i < |lines| :: '\r' !in lines[i]
  }

  lemma {:induction false} NoCrIsStable(lines: seq<string>)
    requires lines != [] && AllLines(lines) && NoCr(lines)
    ensures Stable(lines) && Split(Join(lines)) == lines
  {
    hide Split, Join;
    forall i | 0 <= i < |lines| - 1
      ensures !EndsWithCr(lines[i])
    {
      assert '\r' !in lines[i];
    }
    SplitJoinIff(lines);
  }

  lemma SourceCommitIsName()
    ensures IsFieldName(SOURCE_COMMIT)
  {
  }

  lemma {:induction false} ReplacedHaveNoCr(previous: string, commit: string)
    requires !StrayCr(previous) && NoTerminator(commit)
    ensures var lines := ReplacedLines(Split(previous), SOURCE_COMMIT, commit);
            lines != [] && AllLines(lines) && NoCr(lines)
  {
    hide EntryOf, Split, Names;
    SourceCommitIsName();
    SplitWithoutStrayCr(previous);
    ReplacedAreLines(previous, SOURCE_COMMIT, commit);
    AssignmentChars(SOURCE_COMMIT, commit);
  }

  /** Reading the written text back gives the lines that were written. */
  lemma {:induction false} ContentsLines(c: Candidate, commit: string, previous: string)
    requires !StrayCr(previous) && NoTerminator(commit)
    ensures var lines := RefreshedLines(c, commit, previous);
            && lines != [] && AllLines(lines) && NoCr(lines)
            && Contents(c, commit, previous) == Join(lines)
            && Split(Contents(c, commit, previous)) == lines
  {
    hide EntryOf, Split, Join, ReplacedLines, MissingLines, Entries;
    var base := ReplacedLines(Split(previous), SOURCE_COMMIT, commit);
    ReplacedHaveNoCr(previous, commit);
    NoCrIsStable(base);
    assert base + [] == base;
    MissingLinesAre(c.added, Entries(base), c.nextText);
    var lines := RefreshedLines(c, commit, previous);
    NoCrIsStable(lines);
  }

  /** A refresh changes nothing but source_commit, and appends the missing review fields. */
  lemma {:induction false} RefreshChangesOnlySourceCommit(c: Candidate, commit: string, previous: string)
    requires !StrayCr(previous) && Clean(commit)
    ensures var entries := Updated(ParseRecordFields(previous), SOURCE_COMMIT, commit);
            ParseRecordFields(Contents(c, commit, previous)) ==
            entries + if c.added == [] then [] else MissingEntries(c.added, entries, ParseRecordFields(c.nextText))
  {
    hide EntryOf, Split, Join, ReplacedLines, MissingLines, Contents, Entries, Updated;
    var base := ReplacedLines(Split(previous), SOURCE_COMMIT, commit);
    SourceCommitIsName();
    TrimOfTrimmed(commit);
    ReplacedEntries(Split(previous), SOURCE_COMMIT, commit);
    ContentsLines(c, commit, previous);
    MissingLinesAre(c.added, Entries(base), c.nextText);
    EntriesConcat(base, MissingLines(c.added, Entries(base), ParseRecordFields(c.nextText)));
    assert base + [] == base && Entries(base) + [] == Entries(base);
  }

  // --- planning again after the writes -------------------------------------------------------------

  /** A field is appended at most where the current entries lack it. */
  lemma {:induction false} MissingAreNew(fields: seq<string>, current: seq<Entry>, next: seq<Entry>, field: string)
    requires FirstValue(current, field).Some?
    ensures FirstValue(MissingEntries(fields, current, next), field).None?
  {
    if fields != [] {
      var init, last := fields[..|fields| - 1], fields[|fields| - 1];
      MissingAreNew(init, current, next, field);
      var more := MissingEntries(init, current, next);
      if FirstValue(current, last).None? && FirstValue(next, last).Some? {
        FirstValueAppend(more, Entry(last, FirstValue(next, last).value), field);
      } else {
        assert more + [] == more;
      }
    }
  }

  lemma {:induction false} FirstValueConcat(a: seq<Entry>, b: seq<Entry>, field: string)
    ensures FirstValue(a + b, field) == if FirstValue(a, field).Some? then FirstValue(a, field) else FirstValue(b, field)
  {
    if a == [] {
      assert a + b == b;
    } else {
      assert (a + b)[1..] == a[1..] + b;
      FirstValueConcat(a[1..], b, field);
    }
  }

  /** After appending, nothing is missing. */
  lemma {:induction false} NothingMissingAfter(fields: seq<string>, current: seq<Entry>, next: seq<Entry>, field: string)
    requires field in fields && FirstValue(next, field).Some?
    ensures FirstValue(current + MissingEntries(fields, current, next), field).Some?
  {
    var init, last := fields[..|fields| - 1], fields[|fields| - 1];
    var more := MissingEntries(fields, current, next);
    FirstValueConcat(current, more, field);
    if FirstValue(current, field).None? {
      assert fields == init + [last];
      var before := MissingEntries(init, current, next);
      if field == last {
        FirstValueAppend(before, Entry(last, FirstValue(next, last).value), field);
      } else {
        NothingMissingAfter(init, current, next, field);
        FirstValueConcat(current, before, field);
        FirstValueConcat(before, more[|before|..], field);
        assert before + more[|before|..] == more;
      }
    }
  }

  lemma {:induction false} NoMissingLines(fields: seq<string>, current: seq<Entry>, next: seq<Entry>)
    requires forall f <- fields :: FirstValue(next, f).Some? ==> FirstValue(current, f).Some?
    ensures MissingLines(fields, current, next) == []
  {
    if fields != [] {
      assert fields[|fields| - 1] in fields;
      assert forall f <- fields[..|fields| - 1] :: f in fields;
      NoMissingLines(fields[..|fields| - 1], current, next);
    }
  }

  lemma {:induction false} NoneNamed(lines: seq<string>, i: nat, field: string)
    requires i < |lines| && !SomeLineNames(lines, field)
    ensures !Names(lines[i], field)
  {
  }

  /** Refreshing the source_commit of refreshed lines leaves them as they are. */
  lemma {:induction false} RefreshedLinesAreFixed(c: Candidate, commit: string, previous: string)
    requires !StrayCr(previous) && Clean(commit)
    ensures var lines := RefreshedLines(c, commit, previous);
            ReplacedLines(lines, SOURCE_COMMIT, commit) == lines
  {
    hide EntryOf, Names, Split, Entries, MissingLines, SomeLineNames;
    var before := Split(previous);
    var base := ReplacedLines(before, SOURCE_COMMIT, commit);
    var assignment := Assignment(SOURCE_COMMIT, commit);
    var next := ParseRecordFields(c.nextText);
    var lines := RefreshedLines(c, commit, previous);
    SourceCommitIsName();
    AssignmentNames(SOURCE_COMMIT, commit);
    BaseNamesField(before, commit);
    var more := lines[|base|..];
    if c.added == [] {
      assert more == [];
    } else {
      assert more == MissingLines(c.added, Entries(base), next);
      MissingLinesAre(c.added, Entries(base), c.nextText);
      FirstValueNamed(base, SOURCE_COMMIT);
      MissingAreNew(c.added, Entries(base), next, SOURCE_COMMIT);
      FirstValueNamed(more, SOURCE_COMMIT);
    }
    forall i | 0 <= i < |lines|
      ensures Names(lines[i], SOURCE_COMMIT) ==> lines[i] == assignment
    {
      if i < |base| {
        assert lines[i] == base[i];
      } else {
        assert lines[i] == more[i - |base|];
        NoneNamed(more, i - |base|, SOURCE_COMMIT);
      }
    }
    NamedInPrefix(base, more, SOURCE_COMMIT);
    assert base + more == lines;
    assert MapLines(lines, SOURCE_COMMIT, commit) == lines;
    assert lines + [] == lines;
  }

  lemma {:induction false} BaseNamesField(before: seq<string>, commit: string)
    requires NoTerminator(commit)
    ensures SomeLineNames(ReplacedLines(before, SOURCE_COMMIT, commit), SOURCE_COMMIT)
    ensures forall i | 0 <= i < |ReplacedLines(before, SOURCE_COMMIT, commit)| ::
              Names(ReplacedLines(before, SOURCE_COMMIT, commit)[i], SOURCE_COMMIT) ==>
              ReplacedLines(before, SOURCE_COMMIT, commit)[i] == Assignment(SOURCE_COMMIT, commit)
  {
    hide EntryOf, Names;
    SourceCommitIsName();
    AssignmentNames(SOURCE_COMMIT, commit);
    var base := ReplacedLines(before, SOURCE_COMMIT, commit);
    if SomeLineNames(before, SOURCE_COMMIT) {
      var i :| 0 <= i < |before| && Names(before[i], SOURCE_COMMIT);
      assert base[i] == Assignment(SOURCE_COMMIT, commit);
    } else {
      assert base[|base| - 1] == Assignment(SOURCE_COMMIT, commit);
    }
  }

  lemma {:induction false} NamedInPrefix(a: seq<string>, b: seq<string>, field: string)
    requires SomeLineNames(a, field)
    ensures SomeLineNames(a + b, field)
  {
    hide EntryOf;
    var i :| 0 <= i < |a| && Names(a[i], field);
    assert (a + b)[i] == a[i];
  }

  /** Refreshing refreshed contents changes nothing. */
  lemma {:induction false} RefreshTwice(c: Candidate, commit: string, previous: string)
    requires !StrayCr(previous) && Clean(commit)
    ensures Contents(c, commit, Contents(c, commit, previous)) == Contents(c, commit, previous)
  {
    hide EntryOf, Names, Split, Join, Entries, MissingLines, ReplacedLines;
    var contents := Contents(c, commit, previous);
    var base := ReplacedLines(Split(previous), SOURCE_COMMIT, commit);
    var lines := RefreshedLines(c, commit, previous);
    var next := ParseRecordFields(c.nextText);
    ContentsLines(c, commit, previous);
    RefreshedLinesAreFixed(c, commit, previous);
    assert Replaced(contents, SOURCE_COMMIT, commit) == contents;
    if c.added != [] {
      MissingLinesAre(c.added, Entries(base), c.nextText);
      EntriesConcat(base, MissingLines(c.added, Entries(base), next));
      forall f <- c.added
        ensures FirstValue(next, f).Some? ==> FirstValue(Entries(lines), f).Some?
      {
        if FirstValue(next, f).Some? { NothingMissingAfter(c.added, Entries(base), next, f); }
      }
      NoMissingLines(c.added, Entries(lines), next);
      assert lines + [] == lines;
    }
  }

  /** The generated workspace: source_commit may be rewritten, and what a refresh adds is scaffold. */
  predicate IsScaffold(c: Candidate) {
    && SOURCE_COMMIT in c.allowed
    && var next := ParseRecordFields(c.nextText);
       forall f <- c.added :: FirstValue(next, f).Some? ==> Refreshable(c, Entry(f, FirstValue(next, f).value))
  }

  lemma {:induction false} MissingAreScaffold(c: Candidate, fields: seq<string>, current: seq<Entry>, next: seq<Entry>)
    requires forall f <- fields :: FirstValue(next, f).Some? ==> Refreshable(c, Entry(f, FirstValue(next, f).value))
    ensures forall e <- MissingEntries(fields, current, next) :: Refreshable(c, e)
  {
    hide Refreshable, FirstValue;
    if fields != [] {
      assert fields[|fields| - 1] in fields;
      assert forall f <- fields[..|fields| - 1] :: f in fields;
      MissingAreScaffold(c, fields[..|fields| - 1], current, next);
    }
  }

  lemma {:induction false} DecideAgain(c: Candidate, files: map<string, string>, later: map<string, string>)
    requires IsScaffold(c) && Decide(c, files).Writes? && !StrayCr(files[c.path])
    requires c.path in later && later[c.path] == Decide(c, files).write.contents
    ensures Decide(c, later) == Decide(c, files)
  {
    hide EntryOf, Split, Entries, Contents, Updated, NonRefreshable, Refreshable;
    var previous := files[c.path];
    var commit := FirstValue(ParseRecordFields(c.nextText), SOURCE_COMMIT).value;
    ReadValueIsClean(Split(c.nextText), SOURCE_COMMIT);
    RefreshTwice(c, commit, previous);
    RefreshChangesOnlySourceCommit(c, commit, previous);
    var entries := ParseRecordFields(later[c.path]);
    var next := ParseRecordFields(c.nextText);
    var updated := Updated(ParseRecordFields(previous), SOURCE_COMMIT, commit);
    NonRefreshableIff(c, ParseRecordFields(previous));
    UpdatedRefreshable(c, ParseRecordFields(previous), commit);
    MissingAreScaffold(c, c.added, updated, next);
    forall i | 0 <= i < |entries|
      ensures Refreshable(c, entries[i])
    {
      assert i >= |updated| ==> entries[i] == MissingEntries(c.added, updated, next)[i - |updated|];
    }
    NonRefreshableIff(c, entries);
  }

  lemma {:induction false} UpdatedRefreshable(c: Candidate, entries: seq<Entry>, commit: string)
    requires SOURCE_COMMIT in c.allowed
    requires forall i | 0 <= i < |entries| :: Refreshable(c, entries[i])
    ensures var updated := Updated(entries, SOURCE_COMMIT, commit);
            forall i | 0 <= i < |updated| :: Refreshable(c, updated[i])
  {
  }

  function Apply(files: map<string, string>, writes: seq<Write>): map<string, string> {
    if writes == [] then files
    else Apply(files, writes[..|writes| - 1])[writes[|writes| - 1].path := writes[|writes| - 1].contents]
  }

  lemma {:induction false} ApplyElsewhere(files: map<string, string>, writes: seq<Write>, path: string)
    requires forall w <- writes :: w.path != path
    ensures path in Apply(files, writes) <==> path in files
    ensures path in files ==> Apply(files, writes)[path] == files[path]
  {
    if writes != [] {
      assert writes[|writes| - 1] in writes;
      assert forall w <- writes[..|writes| - 1] :: w in writes;
      ApplyElsewhere(files, writes[..|writes| - 1], path);
    }
  }

  lemma {:induction false} ApplyWritten(files: map<string, string>, writes: seq<Write>, w: Write)
    requires w in writes && forall v <- writes :: v.path == w.path ==> v == w
    ensures w.path in Apply(files, writes) && Apply(files, writes)[w.path] == w.contents
  {
    var init, last := writes[..|writes| - 1], writes[|writes| - 1];
    assert last in writes;
    assert forall v <- init :: v in writes;
    if last != w {
      assert writes == init + [last];
      ApplyWritten(files, init, w);
    }
  }

  lemma {:induction false} SameDecisions(candidates: seq<Candidate>, a: map<string, string>, b: map<string, string>)
    requires forall c <- candidates :: Decide(c, a) == Decide(c, b)
    ensures PlanOf(candidates, a) == PlanOf(candidates, b)
  {
    hide Decide;
    if candidates != [] {
      assert candidates[|candidates| - 1] in candidates;
      assert forall c <- candidates[..|candidates| - 1] :: c in candidates;
      SameDecisions(candidates[..|candidates| - 1], a, b);
    }
  }

  /** Planning again after the plan's writes gives the same plan: the same texts are written again. */
  lemma {:induction false} PlanIsFixpoint(candidates: seq<Candidate>, files: map<string, string>)
    requires PlanOf(candidates, files).Some? && DistinctPaths(candidates)
    requires forall c <- candidates :: IsScaffold(c)
    requires forall path <- files :: !StrayCr(files[path])
    ensures PlanOf(candidates, Apply(files, PlanOf(candidates, files).value.writes)) == PlanOf(candidates, files)
  {
    hide Decide, PlanOf, IsScaffold, StrayCr;
    var writes := PlanOf(candidates, files).value.writes;
    var later := Apply(files, writes);
    PlanIsDecisions(candidates, files);
    forall c <- candidates
      ensures Decide(c, later) == Decide(c, files)
    {
      forall w <- writes | w.path == c.path
        ensures Decide(c, files) == Writes(w)
      {
        var d :| d in candidates && Decide(d, files) == Writes(w);
        DecisionPath(d, files);
        SamePath(candidates, c, d);
      }
      DecisionPath(c, files);
      DecideDepends(c, files, later);
      if Decide(c, files).Writes? {
        ApplyWritten(files, writes, Decide(c, files).write);
        DecideAgain(c, files, later);
      } else {
        ApplyElsewhere(files, writes, c.path);
      }
    }
    SameDecisions(candidates, later, files);
  }

  lemma {:induction false} DecideDepends(c: Candidate, files: map<string, string>, later: map<string, string>)
    ensures (c.path in later <==> c.path in files) && (c.path in files ==> later[c.path] == files[c.path]) ==>
              Decide(c, later) == Decide(c, files)
    ensures Decide(c, files).Writes? ==> c.path in files
  {
  }

  // --- the three scaffolds of the evidence workspace -------------------------------------------------

  const PHASE6_ALLOWED: set<string> := {"review_date", SOURCE_COMMIT, "approval_decision", "approval_notes"}

  const PHASE7_ALLOWED: set<string> := {
    "proof_date", SOURCE_COMMIT, "approval_decision", "approval_notes", "hosted_preflight_evidence",
    "agent_discovery_evidence", "paid_request_evidence", "receipt_verification_evidence",
    "referrer_balance_evidence", "dashboard_summary_evidence", "webhook_delivery_evidence",
    "payout_obligation_evidence", "funding_balance_evidence", "mcp_bundle_evidence",
    "mcp_gateway_evidence", "artifact_manifest_evidence", "commands_run"}

  const SETTINGS_ALLOWED: set<string> := {
    "schema", "review_id", "review_date", "repository", SOURCE_COMMIT, "branch", "required_checks"}

  const SETTINGS_PLACEHOLDERS: set<string> := {
    "<reviewer handles>", "pending", "no", "no-go",
    "scaffold only; replace with live GitHub UI/API evidence before approval",
    "template only; replace with live GitHub UI/API evidence before approval"}

  datatype Workspace = Workspace(
    settingsPath: string, settingsText: string,
    phase6Path: string, phase6Text: string,
    phase7Path: string, phase7Text: string)

  function Candidates(w: Workspace): seq<Candidate> {
    [ Candidate(w.settingsPath, SETTINGS_ALLOWED, SETTINGS_PLACEHOLDERS, w.settingsText, ["review_method", "evidence_source"]),
      Candidate(w.phase6Path, PHASE6_ALLOWED, {}, w.phase6Text, []),
      Candidate(w.phase7Path, PHASE7_ALLOWED, {}, w.phase7Text, []) ]
  }

  /** The three scaffolds of a workspace whose generated review fields are pending are planned once. */
  lemma {:induction false} WorkspacePlanIsFixpoint(w: Workspace, files: map<string, string>)
    requires PlanOf(Candidates(w), files).Some? && DistinctPaths(Candidates(w))
    requires FirstValue(ParseRecordFields(w.settingsText), "review_method") == Some("pending")
    requires FirstValue(ParseRecordFields(w.settingsText), "evidence_source") == Some("pending")
    requires forall path <- files :: !StrayCr(files[path])
    ensures PlanOf(Candidates(w), Apply(files, PlanOf(Candidates(w), files).value.writes)) == PlanOf(Candidates(w), files)
  {
    hide PlanOf, ParseRecordFields, FirstValue, DistinctPaths, StrayCr;
    assert "pending" in SETTINGS_PLACEHOLDERS;
    PlanIsFixpoint(Candidates(w), files);
  }
}
