/** The delivery partner's screen: the online switch, the one offered job,
    the two-step job run (pick up, then deliver) and the earnings counter. */
module DeliveryScreen {
  import opened Types

  /** Where a running job stands: on the way to the store, or carrying the
      parcel to the customer. */
  datatype JobStep = Accepted | PickedUp

  datatype Job = Job(
    id: string,
    store: string,
    storeAddress: string,
    dropAddress: string,
    payout: int,
    items: string)

  /** The job the "Nearby Requests" card offers. */
  const OFFERED_JOB: Job :=
    Job("#JOB-9921", "Sri Krishna Sweets", "Bazaar Street, Coimbatore",
        "Saibaba Colony, Coimbatore", 65, "3 items (Sweets)")

  const START_EARNINGS: int := 1240

  /** The small heading over the map. */
  function StopLabel(step: JobStep): (r: string)
    ensures r == "PICKUP" <==> step == Accepted
    ensures r == "DROP" <==> step == PickedUp
  {
    match step
    case Accepted => "PICKUP"
    case PickedUp => "DROP"
  }

  /** The place named under that heading. */
  function Destination(step: JobStep, job: Job): string {
    match step
    case Accepted => job.store
    case PickedUp => "Customer Location"
  }

  /** The heading and the place change together: the two steps never show the
      same pair, whatever the store is called. */
  lemma StopShownFollowsStep(s1: JobStep, s2: JobStep, job: Job)
    requires StopLabel(s1) == StopLabel(s2)
    ensures s1 == s2
    ensures Destination(s1, job) == Destination(s2, job)
  {
  }

  class DeliveryView {
    var isOnline: bool
    var activeJob: Option<Job>
    var jobStep: JobStep
    var earnings: int
    /** How many jobs have been completed on this screen. */
    ghost var completed: nat

    /** Earnings are the opening figure plus one payout per completed job; a
        running job is the offered one; with no job the step is back at the
        start. */
    ghost predicate Valid()
      reads this
    {
      && earnings == START_EARNINGS + OFFERED_JOB.payout * completed
      && (activeJob.Some? ==> activeJob.value == OFFERED_JOB)
      && (activeJob.None? ==> jobStep == Accepted)
    }

    constructor ()
      ensures Valid()
      ensures !isOnline && activeJob == None && jobStep == Accepted
      ensures earnings == START_EARNINGS && completed == 0
    {
      isOnline := false;
      activeJob := None;
      jobStep := Accepted;
      earnings := START_EARNINGS;
      completed := 0;
    }

    /** The power button; it is on the screen only while no job runs. */
    method ToggleOnline() returns (toggled: bool)
      requires Valid()
      modifies this
      ensures Valid()
      ensures toggled == old(activeJob).None?
      ensures isOnline == if toggled then !old(isOnline) else old(isOnline)
      ensures activeJob == old(activeJob) && jobStep == old(jobStep)
      ensures earnings == old(earnings) && completed == old(completed)
    {
      toggled := activeJob.None?;
      if toggled {
        isOnline := !isOnline;
      }
    }

    /** Accept on the offered job's card, which shows only while online and
        idle. The job starts in step `Accepted`. */
    method AcceptJob() returns (accepted: bool)
      requires Valid()
      modifies this
      ensures Valid()
      ensures accepted == (old(isOnline) && old(activeJob).None?)
      ensures accepted ==> activeJob == Some(OFFERED_JOB) && jobStep == Accepted
      ensures !accepted ==> activeJob == old(activeJob) && jobStep == old(jobStep)
      ensures isOnline == old(isOnline)
      ensures earnings == old(earnings) && completed == old(completed)
    {
      accepted := isOnline && activeJob.None?;
      if accepted {
        activeJob := Some(OFFERED_JOB);
      }
    }

    /** Confirm Pickup, shown while the running job is in step `Accepted`. */
    method ConfirmPickup() returns (moved: bool)
      requires Valid()
      modifies this
      ensures Valid()
      ensures moved == (old(activeJob).Some? && old(jobStep) == Accepted)
      ensures jobStep == if moved then PickedUp else old(jobStep)
      ensures isOnline == old(isOnline) && activeJob == old(activeJob)
      ensures earnings == old(earnings) && completed == old(completed)
    {
      moved := activeJob.Some? && jobStep == Accepted;
      if moved {
        jobStep := PickedUp;
      }
    }

    /** `handleComplete`, behind the Verify Delivery button, which shows only
        in step `PickedUp`: the payout is added, the job cleared and the step
        reset. */
    method HandleComplete() returns (done: bool)
      requires Valid()
      modifies this
      ensures Valid()
      ensures done == (old(activeJob).Some? && old(jobStep) == PickedUp)
      ensures done ==>
        earnings == old(earnings) + old(activeJob).value.payout && completed == old(completed) + 1
      ensures done ==> activeJob == None && jobStep == Accepted
      ensures !done ==>
        earnings == old(earnings) && completed == old(completed)
        && activeJob == old(activeJob) && jobStep == old(jobStep)
      ensures isOnline == old(isOnline)
      ensures earnings >= old(earnings)
    {
      done := activeJob.Some? && jobStep == PickedUp;
      if done {
        earnings := earnings + activeJob.value.payout;
        activeJob := None;
        jobStep := Accepted;
        completed := completed + 1;
      }
    }
  }

  /** A whole run from the idle screen: go online, accept, pick up and
      deliver. Earnings grow by exactly the payout and the screen is idle and
      online again. */
  method DeliverOneJob(v: DeliveryView)
    requires v.Valid() && !v.isOnline && v.activeJob == None
    modifies v
    ensures v.Valid()
    ensures v.isOnline && v.activeJob == None && v.jobStep == Accepted
    ensures v.earnings == old(v.earnings) + 65
  {
    var ok := v.ToggleOnline();
    ok := v.AcceptJob();
    ok := v.ConfirmPickup();
    ok := v.HandleComplete();
  }

  /** Earnings never drop below the opening figure. */
  lemma EarningsAtLeastStart(v: DeliveryView)
    requires v.Valid()
    ensures v.earnings >= START_EARNINGS
  {
  }
}
