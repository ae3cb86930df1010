/** The maintenance transaction does several things at once; the protocol lets other steps come between them. */
module Maintenance {
  import opened Schema
  import opened Transactions
  import opened Accounting
  import opened Protocol
  import opened Safety
  import MetadataService

  lemma OthersStayOverdue(t: Tables, cfg: Config, now: Time, up: Id, other: Id)
    requires up in t.uploads && up != other && Overdue(t, now, other)
    ensures Overdue(Retire(t, cfg, now, up, Expired), now, other)
  {
  }

  lemma {:induction false} ExpiringIsARun(cfg: Config, s: State, ups: seq<Id>) returns (steps: seq<Step>)
    requires cfg.Valid() && Distinct(ups) && forall up :: up in ups ==> Overdue(s.db, s.now, up)
    ensures Run(cfg, s, steps) == Some(s.(db := MetadataService.ExpireAll(s.db, cfg, s.now, ups)))
    ensures forall other :: Overdue(s.db, s.now, other) && other !in ups
              ==> Overdue(MetadataService.ExpireAll(s.db, cfg, s.now, ups), s.now, other)
    decreases |ups|
  {
    hide Next, Retire, Overdue;
    if ups == [] {
      steps := [];
      assert Run(cfg, s, []) == Some(s);
    } else {
      var up, rest := ups[|ups| - 1], ups[..|ups| - 1];
      assert up !in rest;
      steps := ExpiringIsARun(cfg, s, rest);
      var mid := s.(db := MetadataService.ExpireAll(s.db, cfg, s.now, rest));
      assert Overdue(mid.db, s.now, up);
      ExpireStep(cfg, mid, up);
      var u := s.(db := MetadataService.ExpireAll(s.db, cfg, s.now, ups));
      OneStep(cfg, mid, OnExpire(up), u);
      RunsJoin(cfg, s, steps, mid, [OnExpire(up)], u);
      steps := steps + [OnExpire(up)];
      forall other | Overdue(s.db, s.now, other) && other !in ups ensures Overdue(u.db, s.now, other) {
        assert other !in rest;
        OthersStayOverdue(mid.db, cfg, s.now, up, other);
      }
    }
  }

  lemma ExpireStep(cfg: Config, s: State, up: Id)
    requires cfg.Valid() && Overdue(s.db, s.now, up)
    ensures up in s.db.uploads && Next(cfg, s, OnExpire(up)) == Some(s.(db := Retire(s.db, cfg, s.now, up, Expired)))
  {
    hide Retire;
  }

  lemma QueueStep(cfg: Config, s: State, c: Id)
    requires cfg.Valid() && NeedsRepair(s.db, cfg, s.now, c)
    ensures Next(cfg, s, OnNeedsRepair(c)) == Some(s.(db := Enqueue(s.db, RepairOf(c), 0.0)))
  {
    hide Enqueue, NeedsRepair;
  }

  lemma {:induction false} QueueingIsARun(cfg: Config, s: State, cids: seq<Id>) returns (steps: seq<Step>)
    requires cfg.Valid()
    ensures Run(cfg, s, steps) == Some(s.(db := MetadataService.QueueAll(s.db, cfg, s.now, cids)))
    decreases |cids|
  {
    hide Next, NeedsRepair, Enqueue;
    if cids == [] {
      steps := [];
      assert Run(cfg, s, []) == Some(s);
    } else {
      var c, rest := cids[|cids| - 1], cids[..|cids| - 1];
      steps := QueueingIsARun(cfg, s, rest);
      var mid := s.(db := MetadataService.QueueAll(s.db, cfg, s.now, rest));
      if NeedsRepair(mid.db, cfg, s.now, c) {
        var u := s.(db := MetadataService.QueueAll(s.db, cfg, s.now, cids));
        QueueStep(cfg, mid, c);
        OneStep(cfg, mid, OnNeedsRepair(c), u);
        RunsJoin(cfg, s, steps, mid, [OnNeedsRepair(c)], u);
        steps := steps + [OnNeedsRepair(c)];
      }
    }
  }

  /** Whatever the whole maintenance transaction does, a run of the protocol's finer steps does too, so every
      theorem about runs covers it. */
  lemma MaintenanceIsARun(cfg: Config, s: State, expired: seq<Id>, scanned: seq<Id>) returns (steps: seq<Step>)
    requires cfg.Valid() && Distinct(expired) && forall up :: up in expired ==> Overdue(s.db, s.now, up)
    ensures var graded := GradeNodes(s.db, cfg, s.now);
            var after := MetadataService.QueueAll(MetadataService.ExpireAll(graded, cfg, s.now, expired), cfg, s.now,
                                                  scanned);
            Run(cfg, s, steps) == Some(s.(db := after))
  {
    hide Run, MetadataService.QueueAll, MetadataService.ExpireAll;
    var graded := s.(db := GradeNodes(s.db, cfg, s.now));
    OneStep(cfg, s, OnGrade, graded);
    var xs := ExpiringIsARun(cfg, graded, expired);
    var mid := s.(db := MetadataService.ExpireAll(graded.db, cfg, s.now, expired));
    RunsJoin(cfg, s, [OnGrade], graded, xs, mid);
    var ys := QueueingIsARun(cfg, mid, scanned);
    var u := s.(db := MetadataService.QueueAll(mid.db, cfg, s.now, scanned));
    RunsJoin(cfg, s, [OnGrade] + xs, mid, ys, u);
    steps := [OnGrade] + xs + ys;
  }
}
