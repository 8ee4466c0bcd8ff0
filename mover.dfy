/** `move_files_to_s3`: copy an object to `destination_dir` under its own base name, then
    delete the source. Every failure is caught and logged; nothing is raised to the caller. */
module Mover {
  import opened Wrappers
  import opened PathCodec
  import opened ObjectStore

  /** Whether the copy call and the delete call raise this time. */
  datatype MoveFault = MoveFault(copyFails: bool, deleteFails: bool)

  /** What the move logged: nothing (it moved), or the error record of the step that raised. */
  datatype MoveOutcome = Moved | BadLocator | CopyFailed | DeleteFailed

  /** The three locations one move touches: the `CopySource` as the store reads the source
      path (split at its first `/`), the destination, and the location the delete names. */
  datatype MovePlan = MovePlan(copySource: Locator, destination: Locator, deleteTarget: Locator)

  /** The locations `move_files_to_s3(source_path, destination_dir)` computes, or `None` when
      one of the two `parse_s3_uri` calls raises. */
  function PlanMove(sourcePath: string, destinationDir: string): (r: Option<MovePlan>)
    ensures r.Some? <==> ParseS3Uri(sourcePath).Success? && ParseS3Uri(destinationDir).Success?
    ensures r.Some? ==> SplitAtSlash(sourcePath) == Some(r.value.copySource)
    ensures r.Some? ==> r.value.copySource.bucket + "/" + r.value.copySource.key == sourcePath
    ensures r.Some? ==>
              var dest := ParseS3Uri(destinationDir).value;
              r.value.destination == Locator(dest.bucket, Join(dest.key, Basename(ParseS3Uri(sourcePath).value.key)))
    ensures r.Some? ==> ParseS3Uri(sourcePath) == Success(r.value.deleteTarget)
    ensures r.Some? ==> r.value.destination.bucket == ParseS3Uri(destinationDir).value.bucket
    ensures r.Some? ==> Basename(r.value.destination.key) == Basename(r.value.deleteTarget.key)
    ensures r.Some? && !ContainsScheme(sourcePath) ==> r.value.copySource == r.value.deleteTarget
  {
    match (ParseS3Uri(sourcePath), ParseS3Uri(destinationDir))
    case (Success(source), Success(dest)) =>
      CopySourceMatchesParse(sourcePath);
      JoinKeepsBasename(dest.key, source.key);
      Some(MovePlan(SplitAtSlash(sourcePath).value, Locator(dest.bucket, Join(dest.key, Basename(source.key))), source))
    case _ => None
  }

  /** The store reads `CopySource` by splitting at the first `/`; that names the same object as
      `parse_s3_uri` whenever the path has no `s3://` in it. */
  lemma CopySourceMatchesParse(sourcePath: string)
    requires ParseS3Uri(sourcePath).Success?
    ensures SplitAtSlash(sourcePath).Some?
    ensures !ContainsScheme(sourcePath) ==> SplitAtSlash(sourcePath) == Some(ParseS3Uri(sourcePath).value)
  {
    SlashSurvivesRemoval(sourcePath);
    if !ContainsScheme(sourcePath) {
      RemoveSchemeIdentity(sourcePath);
    }
  }

  datatype MoveResult = MoveResult(outcome: MoveOutcome, objects: Objects)

  /** The copy call, then (only if it returned) the delete call, against the store. */
  function CopyThenDelete(objects: Objects, plan: MovePlan, fault: MoveFault): MoveResult
  {
    if fault.copyFails || !CopyAllowed(objects, plan.copySource, plan.destination) then
      MoveResult(CopyFailed, objects)
    else
      var copied := AfterCopy(objects, plan.copySource, plan.destination);
      if fault.deleteFails then MoveResult(DeleteFailed, copied)
      else MoveResult(Moved, AfterDelete(copied, plan.deleteTarget))
  }

  /** The effect of one call of `move_files_to_s3` on the store, and what it logged. */
  function Move(objects: Objects, sourcePath: string, destinationDir: string, fault: MoveFault): MoveResult
  {
    match PlanMove(sourcePath, destinationDir)
    case None => MoveResult(BadLocator, objects)
    case Some(plan) => CopyThenDelete(objects, plan, fault)
  }

  /** `move_files_to_s3`: parse both locators, copy, then delete the source. */
  method MoveFilesToS3(client: Client, sourcePath: string, destinationDir: string, fault: MoveFault)
    returns (outcome: MoveOutcome)
    modifies client
    ensures MoveResult(outcome, client.objects) == Move(old(client.objects), sourcePath, destinationDir, fault)
  {
    var source := ParseS3Uri(sourcePath);
    if source.Failure? {
      return BadLocator;
    }
    var dest := ParseS3Uri(destinationDir);
    if dest.Failure? {
      return BadLocator;
    }
    var destKey := Join(dest.value.key, Basename(source.value.key));
    var plan := PlanMove(sourcePath, destinationDir).value;
    var copied := client.CopyObject(dest.value.bucket, destKey, plan.copySource, fault.copyFails);
    if !copied {
      return CopyFailed;
    }
    var deleted := client.DeleteObject(source.value.bucket, source.value.key, fault.deleteFails);
    if !deleted {
      return DeleteFailed;
    }
    return Moved;
  }

  // ---------------------------------------------------------------------------
  // Properties

  /** A move that goes through leaves the source object at the destination, removes the
      deleted location, and changes no other key. */
  lemma MovedMeansRelocated(objects: Objects, plan: MovePlan, fault: MoveFault)
    requires CopyThenDelete(objects, plan, fault).outcome == Moved
    ensures !fault.copyFails && !fault.deleteFails && plan.copySource in objects
    ensures var after := CopyThenDelete(objects, plan, fault).objects;
            && plan.deleteTarget !in after
            && (plan.destination != plan.deleteTarget ==>
                  plan.destination in after && after[plan.destination] == objects[plan.copySource])
            && (forall l :: l != plan.destination && l != plan.deleteTarget ==>
                  (l in after <==> l in objects) && (l in after ==> after[l] == objects[l]))
  {
  }

  /** When the copy raises or is refused, no delete is issued and the store is as it was. */
  lemma FailedCopyChangesNothing(objects: Objects, plan: MovePlan, fault: MoveFault)
    requires CopyThenDelete(objects, plan, fault).outcome != Moved
    requires CopyThenDelete(objects, plan, fault).outcome != DeleteFailed
    ensures CopyThenDelete(objects, plan, fault) == MoveResult(CopyFailed, objects)
  {
  }

  /** When the delete raises, the object is at both locations and nothing else changed. */
  lemma FailedDeleteKeepsBothCopies(objects: Objects, plan: MovePlan, fault: MoveFault)
    requires CopyThenDelete(objects, plan, fault).outcome == DeleteFailed
    ensures plan.copySource in objects
    ensures CopyThenDelete(objects, plan, fault).objects == objects[plan.destination := objects[plan.copySource]]
    ensures var after := CopyThenDelete(objects, plan, fault).objects;
            plan.copySource in after && after[plan.copySource] == after[plan.destination]
  {
  }

  /** A malformed locator stops the move before any call: nothing changes. */
  lemma MalformedLocatorChangesNothing(objects: Objects, sourcePath: string, destinationDir: string, fault: MoveFault)
    requires ParseS3Uri(sourcePath).Failure? || ParseS3Uri(destinationDir).Failure?
    ensures Move(objects, sourcePath, destinationDir, fault) == MoveResult(BadLocator, objects)
  {
  }

  /** The outcome is `Moved` exactly when neither call raises and the store accepts the copy. */
  lemma MovedIff(objects: Objects, plan: MovePlan, fault: MoveFault)
    ensures CopyThenDelete(objects, plan, fault).outcome == Moved
            <==> !fault.copyFails && !fault.deleteFails && CopyAllowed(objects, plan.copySource, plan.destination)
  {
  }

  /** No move loses the object it moves: for a source path without `s3://` in it, whatever
      happens, the object is afterwards at its source or at its destination. */
  lemma MoveNeverLosesSource(objects: Objects, sourcePath: string, destinationDir: string, fault: MoveFault)
    requires !ContainsScheme(sourcePath)
    requires ParseS3Uri(sourcePath).Success? && ParseS3Uri(sourcePath).value in objects
    ensures var source := ParseS3Uri(sourcePath).value;
            var after := Move(objects, sourcePath, destinationDir, fault).objects;
            || (source in after && after[source] == objects[source])
            || (exists p :: PlanMove(sourcePath, destinationDir) == Some(p)
                  && p.destination in after && after[p.destination] == objects[source])
  {
    match PlanMove(sourcePath, destinationDir)
    case None =>
    case Some(p) =>
      assert p.copySource == p.deleteTarget;
  }

  /** When the copy source and the delete target differ (a key with `s3://` inside it), a
      move that goes through leaves the original in place, copies it to the destination, and
      deletes whatever was stored at the unrelated delete target. */
  lemma MismatchedDeleteKeepsOriginal(objects: Objects, plan: MovePlan)
    requires plan.copySource in objects
    requires plan.copySource != plan.destination
    requires plan.copySource != plan.deleteTarget && plan.destination != plan.deleteTarget
    ensures var r := CopyThenDelete(objects, plan, MoveFault(false, false));
            && r.outcome == Moved
            && plan.copySource in r.objects && r.objects[plan.copySource] == objects[plan.copySource]
            && plan.destination in r.objects && r.objects[plan.destination] == objects[plan.copySource]
            && plan.deleteTarget !in r.objects
  {
  }

  /** The listed key `s3://k` of bucket `b` is copied from `b/s3://k` but the delete names `b/k`. */
  lemma SchemeInKeyPlan()
    ensures PlanMove("b/s3://k", "s3://b/out/")
            == Some(MovePlan(Locator("b", "s3://k"), Locator("b", "out/k"), Locator("b", "k")))
  {
    SchemeInsideKeyIsRemoved();
    ListedPathSplits();
    DestinationParses();
    DestinationKeyExample();
  }

  lemma DestinationKeyExample()
    ensures Join("out/", Basename("k")) == "out/k"
  {
    var k := "k";
    assert '/' !in k by { assert k == ['k']; }
    BasenameAfterSeparator([], k);
    assert [] + k == k;
    JoinUnderDirectory("out/", k);
  }

  lemma ListedPathSplits()
    ensures SplitAtSlash("b/s3://k") == Some(Locator("b", "s3://k"))
  {
    var s := "b/s3://k";
    IndexOfFirst(s, '/', 1);
    assert s[..1] == "b" && s[2..] == "s3://k";
  }

  lemma DestinationParses()
    ensures ParseS3Uri("s3://b/out/") == Success(Locator("b", "out/"))
  {
    var t := "s3://b/out/";
    assert SchemeAt(t, 0) && t[|Scheme|..] == "b/out/";
    var u := "b/out/";
    assert !SchemeAt(u, 0) by { assert u[..|Scheme|][0] != Scheme[0]; }
    assert !SchemeAt(u[1..], 0) by { assert u[1..][..|Scheme|][0] != Scheme[0]; }
    assert forall i: nat :: i >= 2 ==> !SchemeAt(u, i);
    RemoveSchemeIdentity(u);
    IndexOfFirst(u, '/', 1);
  }
}
