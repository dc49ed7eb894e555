/** What a rebind leaves behind, for every combination of call results. */
module RebindOutcomes {
  import opened Basics
  import opened Manifest
  import opened Directory
  import opened Planning
  import opened Wire
  import opened Applying

  function WithHeld(d: Directory, subject: Id, role: Id, a: Assignment): Directory {
    d.(held := d.held[(subject, role) := a])
  }

  function WithoutHeld(d: Directory, subject: Id, role: Id): Directory {
    d.(held := d.held - {(subject, role)})
  }

  /** The plan's record of the old binding is what the server holds. */
  predicate Recorded(w: World, subject: Id, role: Id, pb: PlannedBinding) {
    && (subject, role) in w.dir.held
    && w.dir.held[(subject, role)] == Assignment(pb.oldResource, pb.oldInherit, pb.oldScope)
  }

  lemma AssignStores(w: World, subject: Id, role: Id, resource: Option<Id>, inherit: bool, scope: seq<string>, o: Outcome)
    requires (subject, role) !in w.dir.held
    ensures var (w', r) := Issue(w, OnDirectory(AssignCall(role, subject, resource, inherit, scope)), o);
      && w'.dir == (if o == Refuse then w.dir
                    else WithHeld(w.dir, subject, role, Assignment(resource, inherit, scope)))
      && (r.Answer? <==> o == Accept || o == AcceptBare) && |w'.trace| == |w.trace| + 1 && w'.net == w.net
  {
  }

  lemma UnassignRemoves(w: World, subject: Id, role: Id, resource: Option<Id>, o: Outcome)
    requires (subject, role) in w.dir.held && w.dir.held[(subject, role)].resource == resource
    ensures var (w', r) := Issue(w, OnDirectory(Unassign(role, subject, resource)), o);
      && w'.dir == (if o == Refuse then w.dir else WithoutHeld(w.dir, subject, role))
      && (r.Answer? <==> o == Accept || o == AcceptBare) && |w'.trace| == |w.trace| + 1 && w'.net == w.net
  {
  }

  lemma RemoveThenStore(d: Directory, subject: Id, role: Id, a: Assignment)
    ensures WithHeld(WithoutHeld(d, subject, role), subject, role, a) == WithHeld(d, subject, role, a)
    ensures (subject, role) in d.held && d.held[(subject, role)] == a ==> WithHeld(d, subject, role, a) == d
  {
    assert WithoutHeld(d, subject, role).held[(subject, role) := a] == d.held[(subject, role) := a];
  }

  /**
   * An update leaves exactly the new binding (the old scope carried across), exactly the old one, or
   * none; nothing else on the server moves.  Success means the new one.
   */
  lemma RebindLeavesOneOfThree(w: World, subject: Id, role: Id, resource: Option<Id>, inherit: bool,
                               pb: PlannedBinding, script: Script)
    requires pb.action == Update && Recorded(w, subject, role, pb)
    ensures var b := WriteBinding(w, subject, role, resource, inherit, pb, script);
      var replaced := WithHeld(w.dir, subject, role, Assignment(resource, inherit, pb.oldScope));
      && (b.world.dir == replaced || b.world.dir == w.dir || b.world.dir == WithoutHeld(w.dir, subject, role))
      && (b.ok ==> b.world.dir == replaced)
      && b.world.net == w.net && |w.trace| < |b.world.trace| <= |w.trace| + 3
  {
    WhatRebindLeaves(w, subject, role, resource, inherit, pb, script);
  }

  /** The outcome that the return code and the two restore flags stand for. */
  function Reported(d: Directory, subject: Id, role: Id, a: Assignment, b: Rebound): Directory {
    if b.ok then WithHeld(d, subject, role, a)
    else if b.attempted && !b.succeeded then WithoutHeld(d, subject, role)
    else d
  }

  /**
   * Which of the three it is: the return code and the two restore flags say so exactly when none of
   * the calls that were made was carried out but answered with an error.  A restore reported as done
   * is done either way.
   */
  lemma RebindReportIsExactIff(w: World, subject: Id, role: Id, resource: Option<Id>, inherit: bool,
                               pb: PlannedBinding, script: Script)
    requires pb.action == Update && Recorded(w, subject, role, pb)
    ensures var b := WriteBinding(w, subject, role, resource, inherit, pb, script);
      var o1, o2, o3 := script(|w.trace|), script(|w.trace| + 1), script(|w.trace| + 2);
      && (b.attempted ==> !b.ok) && (b.succeeded ==> b.attempted && b.world.dir == w.dir)
      && (b.world.dir == Reported(w.dir, subject, role, Assignment(resource, inherit, pb.oldScope), b)
          <==> o1 == Refuse || (o1 != Lose && o2 != Lose && (o2 == Refuse ==> o3 != Lose)))
  {
    WhatRebindLeaves(w, subject, role, resource, inherit, pb, script);
    var replaced, none := WithHeld(w.dir, subject, role, Assignment(resource, inherit, pb.oldScope)), WithoutHeld(w.dir, subject, role);
    assert (subject, role) in w.dir.held && (subject, role) in replaced.held && (subject, role) !in none.held;
  }

  /** The whole table, by the outcomes of the three calls. */
  lemma WhatRebindLeaves(w: World, subject: Id, role: Id, resource: Option<Id>, inherit: bool,
                         pb: PlannedBinding, script: Script)
    requires pb.action == Update && Recorded(w, subject, role, pb)
    ensures var b := WriteBinding(w, subject, role, resource, inherit, pb, script);
      var o1, o2, o3 := script(|w.trace|), script(|w.trace| + 1), script(|w.trace| + 2);
      var replaced := WithHeld(w.dir, subject, role, Assignment(resource, inherit, pb.oldScope));
      var none := WithoutHeld(w.dir, subject, role);
      && b.world.net == w.net
      && match o1
         case Refuse => b.world.dir == w.dir && !b.ok && !b.attempted && !b.succeeded && |b.world.trace| == |w.trace| + 1
         case Lose => b.world.dir == none && !b.ok && !b.attempted && !b.succeeded && |b.world.trace| == |w.trace| + 1
         case _ =>
           if o2 == Accept || o2 == AcceptBare
           then b.world.dir == replaced && b.ok && !b.attempted && !b.succeeded && |b.world.trace| == |w.trace| + 2
           else
             && !b.ok && b.attempted && |b.world.trace| == |w.trace| + 3
             && (o2 == Refuse ==> b.world.dir == (if o3 == Refuse then none else w.dir)
                                  && (b.succeeded <==> o3 == Accept || o3 == AcceptBare))
             && (o2 == Lose ==> b.world.dir == replaced && !b.succeeded)
  {
    var was := Assignment(pb.oldResource, pb.oldInherit, pb.oldScope);
    var o1, o2, o3 := script(|w.trace|), script(|w.trace| + 1), script(|w.trace| + 2);
    UnassignRemoves(w, subject, role, pb.oldResource, o1);
    var (w1, r1) := Issue(w, OnDirectory(Unassign(role, subject, pb.oldResource)), o1);
    RemoveThenStore(w.dir, subject, role, was);
    RemoveThenStore(w.dir, subject, role, Assignment(resource, inherit, pb.oldScope));
    if r1.Answer? {
      AssignStores(w1, subject, role, resource, inherit, pb.oldScope, o2);
      var (w2, r2) := Issue(w1, OnDirectory(AssignCall(role, subject, resource, inherit, pb.oldScope)), o2);
      if o2 == Refuse { AssignStores(w2, subject, role, pb.oldResource, pb.oldInherit, pb.oldScope, o3); }
    }
  }

  /**
   * One way to mislead: after a lost answer to the assign, the new binding is in place although the
   * flags read as "holds neither".
   */
  lemma LostAssignLooksLikeNothing(w: World, subject: Id, role: Id, resource: Option<Id>, inherit: bool,
                                   pb: PlannedBinding, script: Script)
    requires pb.action == Update && Recorded(w, subject, role, pb)
    requires script(|w.trace|) == Accept && script(|w.trace| + 1) == Lose
    ensures var b := WriteBinding(w, subject, role, resource, inherit, pb, script);
      !b.ok && b.attempted && !b.succeeded
      && b.world.dir == WithHeld(w.dir, subject, role, Assignment(resource, inherit, pb.oldScope))
  {
    WhatRebindLeaves(w, subject, role, resource, inherit, pb, script);
  }
}
