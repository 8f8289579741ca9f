/** Which panel profile a subscription may be linked to, and what happens to it on deletion. */
module SyncLinks {
  import opened Wrappers
  import opened SyncRows
  import Naming
  import OwnerMarker
  import opened SyncMachine
  import opened SyncInvariants

  type Panel = map<ProfileId, Profile>

  predicate Vanished(panel: Panel, minted: set<ProfileId>, p: ProfileId) { p in minted && p !in panel }

  /** If `p` is still on the panel, it carries this subscription's name and its user's marker. */
  predicate Mine(panel: Panel, minted: set<ProfileId>, p: ProfileId, sub: Sub) {
    p in minted && (p in panel ==> panel[p].username == sub.name && Owner(panel[p]) == Some(sub.user))
  }

  predicate PanelOk(panel: Panel, minted: set<ProfileId>) {
    && (forall p :: p in panel ==> p in minted && Owner(panel[p]).Some?)
    && (forall p, q :: p in panel && q in panel && p != q ==> panel[p].username != panel[q].username)
  }

  /** Two subscriptions of one user never share a name; see `Naming.DistinctPanelNames`. */
  predicate NamesOk(subs: map<SubId, Sub>) {
    forall a, b :: a in subs && b in subs && a != b && subs[a].user == subs[b].user ==> subs[a].name != subs[b].name
  }

  /** Every account is legible: the description printed from it reads back as its own. */
  ghost predicate UsersOk(users: map<UserId, Naming.User>) {
    forall u :: u in users ==> users[u].id == u && OwnerMarker.IsId(u) && OwnerMarker.Legible(users[u])
  }

  predicate WorkerLinkOk(panel: Panel, minted: set<ProfileId>, me: Worker) {
    && (me.sub.link.Some? ==> Mine(panel, minted, me.sub.link.value, me.sub))
    && (me.job.target.Some? ==> me.job.target.value in minted)
    && (me.job.action.Delete? ==> me.job.target.Some?)
    && match me.pc
       case Linking(p) => Mine(panel, minted, p, me.sub) && !me.job.action.Delete?
       case Detaching(p) => Vanished(panel, minted, p) && !me.job.action.Delete?
       case EnsuringDelete(p) => p in minted && !me.job.action.Delete?
       case Resetting(p) => p in minted && !me.job.action.Delete?
       case DeletingPanel(p) => me.job.action.Delete? && me.job.target == Some(p)
       case Retiring(p) => me.job.action.Delete? && me.job.target == Some(p) && p !in panel
       case Finishing => me.job.action.Delete? ==> me.job.target.value !in panel
       case Sibling => true
       case Thrown(_) => true
       case _ => BeforeClaim(me.pc) || !me.job.action.Delete?
  }

  ghost predicate LinksOk(s: State) {
    && UsersOk(s.users) && PanelOk(s.panel, s.minted) && NamesOk(s.subs)
    && (forall id :: id in s.subs && s.subs[id].link.Some? ==>
          Mine(s.panel, s.minted, s.subs[id].link.value, s.subs[id]))
    && (forall w :: w in s.workers ==> WorkerLinkOk(s.panel, s.minted, s.workers[w]))
    && (forall j :: j in s.jobs && s.jobs[j].target.Some? ==> s.jobs[j].target.value in s.minted)
  }

  /** No live orphan: a profile left behind by a deleted subscription has a DELETE still to run. */
  ghost predicate NoOrphan(s: State) {
    forall id :: id in s.subs && s.subs[id].status.Deleted? && s.subs[id].link.Some? && s.subs[id].link.value in s.panel
      ==> HasOpenDelete(s.jobs, id, s.subs[id].link.value)
  }

  /** Names and owner markers never change; a profile that is gone never comes back. */
  predicate PanelMoved(panel: Panel, after: Panel, minted: set<ProfileId>) {
    forall p :: p in after && p in minted ==>
      p in panel && after[p].username == panel[p].username && Owner(after[p]) == Owner(panel[p])
  }

  lemma PrintedOwner(users: map<UserId, Naming.User>, u: UserId, p: Profile)
    requires UsersOk(users) && u in users && p.description == OwnerMarker.Description(users[u])
    ensures Owner(p) == Some(u)
  {
    OwnerMarker.OwnerReadsBackIff(users[u]);
    hide OwnerMarker.ReadOwner, OwnerMarker.Description, OwnerMarker.Legible;
  }

  /** A profile that was created or rewritten carries the marker of the worker's user. */
  lemma WrittenOwner(s: State, step: Step, p: ProfileId)
    requires UsersOk(s.users) && PanelOk(s.panel, s.minted) && Enabled(s, step) && p in PanelAfter(s, step)
    requires p !in s.panel || PanelAfter(s, step)[p].description != s.panel[p].description
    ensures step.Advance? && Owner(PanelAfter(s, step)[p]) == Some(s.workers[step.w].sub.user)
    ensures if p in s.panel then s.workers[step.w].pc.Patching? && s.workers[step.w].sub.link == Some(p)
            else s.workers[step.w].pc.Creating? && p == step.newId
  {
    hide Owner, OwnerMarker.Description, UsersOk, NextWorker;
    PrintedOwner(s.users, s.workers[step.w].sub.user, PanelAfter(s, step)[p]);
  }

  lemma OwnerStays(s: State, step: Step, p: ProfileId)
    requires LinksOk(s) && Enabled(s, step) && p in PanelAfter(s, step) && p in s.panel
    ensures Owner(PanelAfter(s, step)[p]) == Owner(s.panel[p])
  {
    if PanelAfter(s, step)[p].description != s.panel[p].description {
      WrittenOwner(s, step, p);
      assert WorkerLinkOk(s.panel, s.minted, s.workers[step.w]);
    }
    hide PanelAfter, Enabled, LinksOk, OwnerMarker.ReadOwner;
  }

  lemma PanelMovesOn(s: State, step: Step)
    requires LinksOk(s) && Enabled(s, step)
    ensures PanelMoved(s.panel, PanelAfter(s, step), s.minted) && s.minted <= MintedAfter(s, step)
  {
    forall p | p in PanelAfter(s, step) && p in s.panel
      ensures Owner(PanelAfter(s, step)[p]) == Owner(s.panel[p]) { OwnerStays(s, step, p); }
    hide Owner, OwnerMarker.Description, OwnerMarker.Legible, NextWorker, UsersOk;
  }

  /** A profile that was not there before is the one just created, under a name of its own. */
  lemma NewProfile(s: State, step: Step, p: ProfileId)
    requires Enabled(s, step) && p in PanelAfter(s, step) && p !in s.panel
    ensures step.Advance? && p == step.newId && p in MintedAfter(s, step)
    ensures forall q :: q in s.panel ==> s.panel[q].username != PanelAfter(s, step)[p].username
  {
    hide NextWorker, OwnerMarker.Description;
  }

  lemma PanelStaysOk(s: State, step: Step)
    requires LinksOk(s) && Enabled(s, step)
    ensures PanelOk(PanelAfter(s, step), MintedAfter(s, step))
  {
    PanelMovesOn(s, step);
    var after := PanelAfter(s, step);
    forall p | p in after ensures Owner(after[p]).Some? && (p in s.panel || p in MintedAfter(s, step)) {
      if p in s.panel { OwnerStays(s, step, p); } else { WrittenOwner(s, step, p); NewProfile(s, step, p); }
    }
    forall p, q | p in after && q in after && p != q ensures after[p].username != after[q].username {
      if p !in s.panel { NewProfile(s, step, p); }
      if q !in s.panel { NewProfile(s, step, q); }
    }
    hide PanelAfter, MintedAfter, Enabled, Owner, UsersOk;
  }

  lemma PanelMoves(s: State, step: Step)
    requires LinksOk(s) && Enabled(s, step)
    ensures PanelMoved(s.panel, PanelAfter(s, step), s.minted) && s.minted <= MintedAfter(s, step)
    ensures PanelOk(PanelAfter(s, step), MintedAfter(s, step))
  {
    PanelMovesOn(s, step);
    PanelStaysOk(s, step);
    hide *;
  }

  lemma MineStays(panel: Panel, after: Panel, minted: set<ProfileId>, more: set<ProfileId>, p: ProfileId, sub: Sub)
    requires PanelMoved(panel, after, minted) && minted <= more && Mine(panel, minted, p, sub)
    ensures Mine(after, more, p, sub)
  {
  }

  lemma WorkerLinkStays(panel: Panel, after: Panel, minted: set<ProfileId>, more: set<ProfileId>, me: Worker)
    requires PanelMoved(panel, after, minted) && minted <= more && WorkerLinkOk(panel, minted, me)
    ensures WorkerLinkOk(after, more, me)
  {
  }

  /** The steps that keep the subscription snapshot, judged on the panel `after` that the call leaves behind. */
  lemma NextLinkOk(s: State, me: Worker, newId: nat, found: Option<ProfileId>, after: Panel, more: set<ProfileId>)
    requires CanAdvance(s, me, newId, found) && NextWorker(s, me, newId, found).Some?
    requires !me.pc.Looking? && !me.pc.Reloading? && !me.pc.Verifying? && !me.pc.Refreshing?
    requires WorkerLinkOk(after, more, me)
    requires me.pc.Creating? ==> newId in more && newId in after && after[newId].username == me.sub.name
                                 && Owner(after[newId]) == Some(me.sub.user)
    requires me.pc.DeletingPanel? ==> me.pc.target !in after
    requires me.pc.Patching? ==> after.Keys == s.panel.Keys
    ensures WorkerLinkOk(after, more, NextWorker(s, me, newId, found).value)
  {
  }

  /** The steps that look a profile up or reload the subscription: they leave the panel alone. */
  lemma LookupLinkOk(s: State, me: Worker, newId: nat, found: Option<ProfileId>)
    requires CanAdvance(s, me, newId, found)
    requires me.pc.Looking? || me.pc.Reloading? || me.pc.Verifying? || me.pc.Refreshing?
    requires WorkerLinkOk(s.panel, s.minted, me) && PanelOk(s.panel, s.minted)
    requires var sub := s.subs[me.job.subscription];
      sub.link.Some? ==> Mine(s.panel, s.minted, sub.link.value, sub)
    ensures WorkerLinkOk(s.panel, s.minted, NextWorker(s, me, newId, found).value)
  {
  }

  lemma CreatedProfile(s: State, step: Step)
    requires UsersOk(s.users) && Enabled(s, step) && step.Advance? && s.workers[step.w].pc.Creating?
    ensures step.newId in MintedAfter(s, step) && step.newId in PanelAfter(s, step)
    ensures PanelAfter(s, step)[step.newId].username == s.workers[step.w].sub.name
    ensures Owner(PanelAfter(s, step)[step.newId]) == Some(s.workers[step.w].sub.user)
  {
    hide Owner, OwnerMarker.Description, NextWorker, UsersOk;
    PrintedOwner(s.users, s.workers[step.w].sub.user, PanelAfter(s, step)[step.newId]);
  }

  /** What a worker's own step leaves on the panel, apart from creating. */
  lemma OwnStepOnPanel(s: State, step: Step)
    requires Enabled(s, step) && step.Advance?
    ensures var me := s.workers[step.w];
      && (me.pc.DeletingPanel? ==> me.pc.target !in PanelAfter(s, step))
      && (me.pc.Patching? ==> PanelAfter(s, step).Keys == s.panel.Keys)
      && (me.pc.Looking? || me.pc.Reloading? || me.pc.Verifying? || me.pc.Refreshing? ==>
            PanelAfter(s, step) == s.panel && MintedAfter(s, step) == s.minted)
  {
    hide OwnerMarker.Description, NextWorker;
  }

  lemma OwnLinkStep(s: State, step: Step)
    requires RowsOk(s) && LinksOk(s) && Enabled(s, step) && step.Advance? && step.w in WorkersAfter(s, step)
    ensures WorkerLinkOk(PanelAfter(s, step), MintedAfter(s, step), WorkersAfter(s, step)[step.w])
  {
    PanelMoves(s, step);
    OwnStepOnPanel(s, step);
    if s.workers[step.w].pc.Creating? { CreatedProfile(s, step); }
    OwnNext(s, step);
    var me := s.workers[step.w];
    assert WorkerLinkOk(s.panel, s.minted, me) && WorkerOk(s, me);
    WorkerLinkStays(s.panel, PanelAfter(s, step), s.minted, MintedAfter(s, step), me);
    hide PanelAfter, MintedAfter, WorkersAfter, NextWorker, Owner, WorkerLinkOk, CanAdvance;
    if me.pc.Looking? || me.pc.Reloading? || me.pc.Verifying? || me.pc.Refreshing? {
      LookupLinkOk(s, me, step.newId, step.found);
    } else {
      NextLinkOk(s, me, step.newId, step.found, PanelAfter(s, step), MintedAfter(s, step));
    }
  }

  lemma WorkerLinkStep(s: State, step: Step, w: WorkerId)
    requires RowsOk(s) && LinksOk(s) && Enabled(s, step) && w in WorkersAfter(s, step)
    ensures WorkerLinkOk(PanelAfter(s, step), MintedAfter(s, step), WorkersAfter(s, step)[w])
  {
    if step.Advance? && step.w == w {
      OwnLinkStep(s, step);
    } else {
      PanelMoves(s, step);
      OtherWorker(s, step, w);
      var me := WorkersAfter(s, step)[w];
      hide WorkersAfter, PanelAfter, MintedAfter, Enabled;
      if w in s.workers { assert WorkerLinkOk(s.panel, s.minted, s.workers[w]); }
      else { assert RowOk(me.job, s.clock); }
      WorkerLinkStays(s.panel, PanelAfter(s, step), s.minted, MintedAfter(s, step), me);
    }
  }

  /** A link is one the subscription had, or one its own worker was about to write. */
  lemma LinkSource(s: State, step: Step, id: SubId)
    requires Enabled(s, step) && id in SubsAfter(s, step) && SubsAfter(s, step)[id].link.Some?
    ensures var sub := SubsAfter(s, step)[id];
      || (id in s.subs && sub.link == s.subs[id].link && sub.user == s.subs[id].user && sub.name == s.subs[id].name)
      || (step.Advance? && s.workers[step.w].job.subscription == id && id in s.subs
          && s.workers[step.w].pc == Linking(sub.link.value)
          && sub.user == s.subs[id].user && sub.name == s.subs[id].name)
  {
  }

  lemma LinkWasMine(s: State, step: Step, id: SubId)
    requires RowsOk(s) && LinksOk(s) && Enabled(s, step) && id in SubsAfter(s, step)
    requires SubsAfter(s, step)[id].link.Some?
    ensures var sub := SubsAfter(s, step)[id]; Mine(s.panel, s.minted, sub.link.value, sub)
  {
    LinkSource(s, step, id);
    if step.Advance? {
      assert WorkerLinkOk(s.panel, s.minted, s.workers[step.w]) && WorkerOk(s, s.workers[step.w]);
    }
    hide SubsAfter, RowsOk, Owner;
  }

  lemma SubsLinked(s: State, step: Step, id: SubId)
    requires RowsOk(s) && LinksOk(s) && Enabled(s, step) && id in SubsAfter(s, step)
    requires SubsAfter(s, step)[id].link.Some?
    ensures var sub := SubsAfter(s, step)[id]; Mine(PanelAfter(s, step), MintedAfter(s, step), sub.link.value, sub)
  {
    PanelMoves(s, step);
    LinkWasMine(s, step, id);
    var sub := SubsAfter(s, step)[id];
    hide *;
    MineStays(s.panel, PanelAfter(s, step), s.minted, MintedAfter(s, step), sub.link.value, sub);
  }

  lemma TargetsMinted(s: State, step: Step, j: JobId)
    requires RowsOk(s) && LinksOk(s) && Enabled(s, step)
    requires j in JobsAfter(s, step) && JobsAfter(s, step)[j].target.Some?
    ensures JobsAfter(s, step)[j].target.value in s.minted
  {
    if j in s.jobs {
      JobRows(s, step);
      MovedRowOk(s, step, j, JobsAfter(s, step)[j]);
    } else {
      if step.Advance? { assert WorkerLinkOk(s.panel, s.minted, s.workers[step.w]); }
    }
  }

  lemma LinksOkStep(s: State, step: Step)
    requires RowsOk(s) && LinksOk(s) && Enabled(s, step)
    ensures LinksOk(Apply(s, step))
  {
    var t := Apply(s, step);
    PanelMoves(s, step);
    forall id | id in t.subs && t.subs[id].link.Some?
      ensures Mine(t.panel, t.minted, t.subs[id].link.value, t.subs[id]) { SubsLinked(s, step, id); }
    forall w | w in t.workers ensures WorkerLinkOk(t.panel, t.minted, t.workers[w]) { WorkerLinkStep(s, step, w); }
    forall j | j in t.jobs && t.jobs[j].target.Some? ensures t.jobs[j].target.value in t.minted {
      TargetsMinted(s, step, j);
    }
    NamesStay(s, step);
  }

  lemma NamesStay(s: State, step: Step)
    requires NamesOk(s.subs) && Enabled(s, step)
    ensures NamesOk(SubsAfter(s, step))
  {
    SubsStay(s, step);
  }

  // ---- no live orphan ----

  lemma WorkerKeepsDelete(s: State, me: Worker, j: JobId, after: Job, id: SubId, p: ProfileId)
    requires WorkerLinkOk(s.panel, s.minted, me) && WorkerOk(s, me) && j in s.jobs && RowOk(s.jobs[j], s.clock)
    requires OpenDelete(s.jobs[j], id, p) && p in s.panel && WorkerMove(s, me, j, after)
    ensures OpenDelete(after, id, p)
  {
    hide Mine, Owner;
  }

  lemma DeleteRowStays(s: State, step: Step, j: JobId, after: Job, id: SubId, p: ProfileId)
    requires RowsOk(s) && LinksOk(s) && j in s.jobs && RowMove(s, step, j, after)
    requires OpenDelete(s.jobs[j], id, p) && p in s.panel
    ensures OpenDelete(after, id, p)
  {
    assert RowOk(s.jobs[j], s.clock);
    if step.Advance? && step.w in s.workers && WorkerMove(s, s.workers[step.w], j, after) {
      assert WorkerLinkOk(s.panel, s.minted, s.workers[step.w]) && WorkerOk(s, s.workers[step.w]);
      WorkerKeepsDelete(s, s.workers[step.w], j, after, id, p);
    }
    hide RowsOk, LinksOk, WorkerMove, WorkerLinkOk, WorkerOk;
  }

  /** A DELETE still open stays open until its profile is gone from the panel. */
  lemma OpenDeleteStays(s: State, step: Step, id: SubId, p: ProfileId)
    requires RowsOk(s) && LinksOk(s) && Enabled(s, step) && HasOpenDelete(s.jobs, id, p) && p in s.panel
    ensures HasOpenDelete(JobsAfter(s, step), id, p)
  {
    var j :| j in s.jobs && OpenDelete(s.jobs[j], id, p);
    RowMoves(s, step);
    hide JobsAfter, RowMove, Enabled, OpenDelete;
    DeleteRowStays(s, step, j, JobsAfter(s, step)[j], id, p);
  }

  /** The step that first leaves a deleted subscription linked also leaves the DELETE. */
  lemma OrphaningStepDeletes(s: State, step: Step, id: SubId)
    requires RowsOk(s) && Enabled(s, step) && id in SubsAfter(s, step)
    requires SubsAfter(s, step)[id].status.Deleted? && SubsAfter(s, step)[id].link.Some?
    requires id !in s.subs || !s.subs[id].status.Deleted? || s.subs[id].link != SubsAfter(s, step)[id].link
    ensures HasOpenDelete(JobsAfter(s, step), id, SubsAfter(s, step)[id].link.value)
  {
    var p := SubsAfter(s, step)[id].link.value;
    var t := JobsAfter(s, step);
    if step.DeleteSub? {
      assert OpenDelete(t[step.newJob], id, p);
    } else if !HasOpenDelete(s.jobs, id, p) {
      assert OpenDelete(t[step.newId], id, p);
    }
  }

  lemma NoOrphanStep(s: State, step: Step)
    requires RowsOk(s) && LinksOk(s) && NoOrphan(s) && Enabled(s, step)
    ensures NoOrphan(Apply(s, step))
  {
    var t := Apply(s, step);
    forall id | id in t.subs && t.subs[id].status.Deleted? && t.subs[id].link.Some? && t.subs[id].link.value in t.panel
      ensures HasOpenDelete(t.jobs, id, t.subs[id].link.value)
    {
      PanelMoves(s, step);
      if id in s.subs && s.subs[id].status.Deleted? && s.subs[id].link == t.subs[id].link {
        OpenDeleteStays(s, step, id, t.subs[id].link.value);
      } else {
        OrphaningStepDeletes(s, step, id);
      }
    }
  }

  /** What a step does to a linked subscription's link and status. */
  lemma LinkedSubMoves(s: State, step: Step, id: SubId)
    requires Enabled(s, step) && id in s.subs && s.subs[id].link.Some?
    ensures id in SubsAfter(s, step)
    ensures SubsAfter(s, step)[id].link.None? ==>
      && step.Advance?
      && (s.workers[step.w].pc == Detaching(s.subs[id].link.value)
          || s.workers[step.w].pc == Retiring(s.subs[id].link.value))
    ensures SubsAfter(s, step)[id].status.Deleted? && !s.subs[id].status.Deleted? ==>
      step.DeleteSub? || (step.Advance? && s.workers[step.w].pc == Retiring(s.subs[id].link.value))
  {
    hide NextWorker;
  }

  /** A link is only dropped once its profile has left the panel for good; no DELETE touches another link. */
  lemma DetachedOnlyWhenGone(s: State, step: Step, id: SubId)
    requires RowsOk(s) && LinksOk(s) && Enabled(s, step) && id in s.subs && s.subs[id].link.Some?
    ensures id in SubsAfter(s, step)
    ensures SubsAfter(s, step)[id].link.None? ==>
      Vanished(PanelAfter(s, step), MintedAfter(s, step), s.subs[id].link.value)
    ensures SubsAfter(s, step)[id].status.Deleted? && !s.subs[id].status.Deleted? ==>
      || step.DeleteSub?
      || (step.Advance? && s.workers[step.w].pc == Retiring(s.subs[id].link.value)
          && Vanished(PanelAfter(s, step), MintedAfter(s, step), s.subs[id].link.value))
  {
    PanelMoves(s, step);
    LinkedSubMoves(s, step, id);
    var p := s.subs[id].link.value;
    if step.Advance? {
      assert WorkerLinkOk(s.panel, s.minted, s.workers[step.w]);
      LeavingIsGone(s.panel, s.minted, s.workers[step.w], p);
    }
    hide SubsAfter, PanelAfter, MintedAfter, Enabled, RowsOk;
    hide LinksOk, PanelMoved, PanelOk, Owner, WorkerLinkOk, Vanished;
    if Vanished(s.panel, s.minted, p) {
      GoneStaysGone(s.panel, PanelAfter(s, step), s.minted, MintedAfter(s, step), p);
    }
  }

  lemma LeavingIsGone(panel: Panel, minted: set<ProfileId>, me: Worker, p: ProfileId)
    requires WorkerLinkOk(panel, minted, me)
    ensures me.pc == Detaching(p) || me.pc == Retiring(p) ==> Vanished(panel, minted, p)
  {
    hide Owner;
  }

  lemma GoneStaysGone(panel: Panel, after: Panel, minted: set<ProfileId>, more: set<ProfileId>, p: ProfileId)
    requires PanelMoved(panel, after, minted) && minted <= more && Vanished(panel, minted, p)
    ensures Vanished(after, more, p)
  {
    hide Owner;
  }
}
