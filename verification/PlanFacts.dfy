/** What every planned verdict satisfies, whatever the rows. */
module PlanFacts {
  import opened Basics
  import opened Text
  import opened Order
  import opened Rows
  import opened Verdicts
  import Groups
  import GroupResult
  import GroupEdges

  // ---- text -----------------------------------------------------------------

  lemma {:induction false} BlankStrips(s: string)
    requires Blank(s)
    ensures Strip(s) == []
  {
    if s != [] {
      BlankStrips(s[1..]);
    }
  }

  lemma ValidSlugStrips(s: Slug)
    requires ValidSlug(s)
    ensures Strip(s) == s
  {
    assert s[0] in s && s[|s| - 1] in s;
    assert LStrip(s) == s;
  }

  ghost predicate ValidSlugs(s: seq<Slug>)
  {
    forall k :: 0 <= k < |s| ==> ValidSlug(s[k])
  }

  lemma {:induction false} ValidSlugsStrip(s: seq<Slug>)
    requires ValidSlugs(s)
    ensures StripEach(s) == s
  {
    if s != [] {
      var n := |s| - 1;
      ValidSlugsStrip(s[..n]);
      ValidSlugStrips(s[n]);
      assert s == s[..n] + [s[n]];
    }
  }

  // ---- the state a plan reads ------------------------------------------------

  /** The fields of a plan's state that name stored rows. */
  ghost predicate Reads(db: Db, v: Verdict, st: State)
  {
    && (forall i <- st.notes :: i in db.notes && db.notes[i].archivedAt.None? && db.notes[i].ns == v.ns
                                && st.notes[i] == NoteOf(i, db.notes[i]))
    && (st.recorded.None? && st.cached.None? ==> st.replacement == ExistingOf(db.notes, MergedId(v, st.notes)))
  }

  lemma LoadReads(db: Db, env: Env, v: Verdict, b: Batch)
    ensures Reads(db, v, LoadState(db, env, v, b))
  {
  }

  /** The archived notes are active members. */
  ghost predicate ArchivesMembers(db: Db, v: Verdict, archived: seq<Id>)
  {
    forall i <- archived :: Active(db.notes, i) && db.notes[i].ns == v.ns && i in v.memberIds
  }

  /** Something survives, active, and is not archived. */
  ghost predicate SurvivorsLive(db: Db, plan: Plan)
  {
    && plan.survivors != []
    && (forall s <- plan.survivors :: s !in plan.archived)
    && (!plan.created ==> forall s <- plan.survivors :: Active(db.notes, s))
  }

  ghost predicate CreatesFresh(db: Db, plan: Plan)
  {
    plan.created ==>
      && plan.verb == Merge && plan.replacement.Some?
      && plan.replacement.value !in db.notes && plan.survivors == [plan.replacement.value]
  }

  /** What a plan may change: active members, into active survivors or one fresh note. */
  ghost predicate SoundPlan(db: Db, v: Verdict, plan: Plan)
  {
    && ArchivesMembers(db, v, plan.archived)
    && SurvivorsLive(db, plan)
    && CreatesFresh(db, plan)
    && (plan.verb == Keep <==> plan.archived == [])
    && (plan.verb == Keep <==> v.verb == Keep)
    && (plan.verb == Merge ==> plan.archived == SortStrings(v.memberIds))
  }

  /** The sorted member ids of a plan past the group check. */
  ghost predicate Several(st: State, members: seq<Id>)
  {
    && |members| >= 2 && members[0] != members[1]
    && forall j <- members :: j in st.notes
  }

  lemma MembersActive(db: Db, v: Verdict, st: State, members: seq<Id>)
    requires Reads(db, v, st) && members == SortStrings(v.memberIds) && Several(st, members)
    ensures ArchivesMembers(db, v, members)
  {
    SortKeeps(v.memberIds);
  }

  lemma RetireIsSound(db: Db, v: Verdict, members: seq<Id>)
    requires ArchivesMembers(db, v, members) && v.verb == Retire
    requires PlanRetire(v, members).Planned?
    ensures SoundPlan(db, v, PlanRetire(v, members).plan)
  {
    var plan := PlanRetire(v, members).plan;
    SortKeeps(v.retireIds);
    assert v.retireIds[0] in plan.archived;
    var left :| left in members && left !in v.retireIds;
    assert left in plan.survivors;
  }

  lemma RestateIsSound(db: Db, v: Verdict, st: State, members: seq<Id>, same: Id)
    requires ArchivesMembers(db, v, members) && v.verb == Merge
    requires Several(st, members) && same in members
    ensures SoundPlan(db, v, Plan(Retire, Keeping(members, [same]), [same], None, false, Restates(same)))
  {
  }

  lemma MergedIdIs(env: Env, v: Verdict, st: State, members: seq<Id>)
    requires members == SortStrings(v.memberIds) && v.verb == Merge && Several(st, members)
    requires ReplacementRow(env, v, st.notes, members, 0).Some?
    ensures members[0] in members
    ensures MergedId(v, st.notes) == Some(NoteId(v.ns, st.notes[members[0]].author, v.mergedText))
  {
    assert members[0] in members;
    if Blank(v.mergedText) {
      BlankStrips(v.mergedText);
    }
  }

  lemma ReplaceIsSound(db: Db, v: Verdict, st: State, members: seq<Id>, id: Id)
    requires ArchivesMembers(db, v, members) && v.verb == Merge && members == SortStrings(v.memberIds)
    requires Several(st, members) && members[0] in st.notes
    requires id == NoteId(v.ns, st.notes[members[0]].author, v.mergedText)
    requires st.replacement == ExistingOf(db.notes, Some(id))
    requires PlanReplacement(v, st, members).Planned?
    ensures SoundPlan(db, v, PlanReplacement(v, st, members).plan)
  {
  }

  lemma MergeHasRow(env: Env, v: Verdict, st: State, members: seq<Id>)
    requires Several(st, members) && PlanMerge(env, v, st, members).Planned?
    ensures ReplacementRow(env, v, st.notes, members, 0).Some?
  {
  }

  lemma MergeGoesOn(env: Env, v: Verdict, st: State, members: seq<Id>)
    requires Several(st, members) && PlanMerge(env, v, st, members).Planned?
    ensures PlanMerge(env, v, st, members)
            == match SameText(st.notes, members, v.mergedText)
               case Some(same) => Planned(Plan(Retire, Keeping(members, [same]), [same], None, false, Restates(same)))
               case None => PlanReplacement(v, st, members)
  {
  }

  lemma MergeIsSound(env: Env, db: Db, v: Verdict, st: State, members: seq<Id>)
    requires ArchivesMembers(db, v, members) && v.verb == Merge && members == SortStrings(v.memberIds)
    requires Several(st, members) && st.replacement == ExistingOf(db.notes, MergedId(v, st.notes))
    requires PlanMerge(env, v, st, members).Planned?
    ensures SoundPlan(db, v, PlanMerge(env, v, st, members).plan)
  {
    MergeHasRow(env, v, st, members);
    MergeGoesOn(env, v, st, members);
    match SameText(st.notes, members, v.mergedText)
    case Some(same) =>
      RestateIsSound(db, v, st, members, same);
    case None =>
      MergedIdIs(env, v, st, members);
      ReplaceIsSound(db, v, st, members, MergedId(v, st.notes).value);
  }

  /** The issued group is one of the current ones, and its key is the submitted one. */
  lemma {:induction false} IssuedIs(ns: string, M: map<Id, Note>, groups: seq<Groups.Group>, key: GroupKey)
    ensures var g := Issued(ns, M, groups, key);
      g.Some? ==> g.value in groups && (forall i <- g.value.members :: i in M)
                  && KeyOfGroup(ns, M, g.value.members) == key
  {
    if groups != [] {
      IssuedIs(ns, M, groups[1..], key);
    }
  }

  lemma IssuedHasTwo(st: State, p: Params, g: Groups.Group)
    requires Groups.EndsKnown(st.pairs, st.notes) && p.maxGroup >= 2 && g in CurrentGroups(st, p)
    ensures Several(st, g.members) && Distinct(g.members)
  {
    GroupEdges.BuiltGroupsAreCliques(st.pairs, st.notes, p, g);
    GroupResult.AscendingDistinct(g.members);
    forall j | j in g.members ensures j in st.notes {
      assert j in Elems(g.members);
    }
  }

  /** The submitted members are a current group with the submitted key. */
  ghost predicate OnGroup(v: Verdict, b: Batch, st: State)
    requires Groups.EndsKnown(st.pairs, st.notes) && b.params.maxGroup >= 2
  {
    var members := SortStrings(v.memberIds);
    && st.recorded.None? && st.cached.None?
    && Several(st, members) && Distinct(members)
    && (exists g :: g in CurrentGroups(st, b.params) && g.members == members)
    && KeyOfGroup(v.ns, st.notes, members) == v.key
    && (v.verb != Keep ==> st.used < b.maxActions)
  }

  /** What a plan means was passed on the way to it. */
  lemma PlanPasses(env: Env, v: Verdict, b: Batch, st: State)
    requires Groups.EndsKnown(st.pairs, st.notes) && b.params.maxGroup >= 2
    requires PlanVerdict(env, v, b, st).Planned?
    ensures st.recorded.None? && st.cached.None? && (v.verb != Keep ==> st.used < b.maxActions)
    ensures var members := SortStrings(v.memberIds);
      var issued := Issued(v.ns, st.notes, CurrentGroups(st, b.params), v.key);
      && issued.Some? && issued.value.members == members && members != []
      && (forall i <- members :: i in st.notes)
      && PlanVerdict(env, v, b, st) == PlanVerb(env, v, st, members)
  {
  }

  lemma PlannedOnGroup(env: Env, v: Verdict, b: Batch, st: State)
    requires Groups.EndsKnown(st.pairs, st.notes) && b.params.maxGroup >= 2
    requires PlanVerdict(env, v, b, st).Planned?
    ensures OnGroup(v, b, st)
    ensures PlanVerdict(env, v, b, st) == PlanVerb(env, v, st, SortStrings(v.memberIds))
  {
    PlanPasses(env, v, b, st);
    var groups := CurrentGroups(st, b.params);
    var issued := Issued(v.ns, st.notes, groups, v.key);
    IssuedIs(v.ns, st.notes, groups, v.key);
    IssuedHasTwo(st, b.params, issued.value);
  }

  /** Every planned verdict is sound over the rows it was planned on. */
  lemma DecidedIsSound(db: Db, env: Env, v: Verdict, b: Batch)
    requires b.params.maxGroup >= 2 && Decide(db, env, v, b).Planned?
    ensures SoundPlan(db, v, Decide(db, env, v, b).plan)
  {
    var st := LoadState(db, env, v, b);
    PlannedOnGroup(env, v, b, st);
    var members := SortStrings(v.memberIds);
    MembersActive(db, v, st, members);
    match v.verb
    case Keep =>
    case Retire => RetireIsSound(db, v, members);
    case Merge => MergeIsSound(env, db, v, st, members);
  }
}
