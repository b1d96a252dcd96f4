/** The evidence protocol as a state machine: stages run in any order and any number of times under
    a clock that never goes back, and each reads what earlier stages wrote. */
module Protocol {
  import opened Primitives
  import opened Campaign
  import opened GitHub
  import Assembly
  import CP = CampaignProvenance
  import WP = WorkflowProvenance
  import Review
  import RP = ReviewProvenance
  import Promotion

  /** What stays fixed during a run: the tables, what each byte string decodes to, and the record
      GitHub keeps of the first attempt of an assembly run. */
  datatype World = World(k: Contract, manifest: Bytes -> Manifest, record: Bytes -> Review.Record,
                         assemblyRun: int -> RunMetadata)

  datatype Event =
    | Assembled(assembly: Assembly.Inputs, campaign: File<Manifest>, reports: map<string, Bytes>)
    | CampaignVerified(campaign: File<Manifest>, dispatch: Dispatch, bundle: CP.Inputs, report: CP.Report)
    | WorkflowsVerified(campaign: File<Manifest>, dispatch: Dispatch, sources: WP.Inputs, workflows: WP.Report)
    | Reviewed(observed: Review.Inputs, dispatch: Dispatch, review: File<Review.Record>)
    | Authenticated(campaign: File<Manifest>, review: File<Review.Record>, dispatch: Dispatch, proof: RP.Evidence,
                    provenance: RP.Provenance)
    | Decided(inputs: Promotion.Inputs, dispatch: Dispatch, ready: bool)

  datatype Entry = Entry(event: Event, at: Micros)

  datatype State = State(clock: Micros, log: seq<Entry>)

  type Log = seq<Entry>

  ghost predicate WasAssembled(log: Log, c: File<Manifest>) {
    exists i :: 0 <= i < |log| && log[i].event.Assembled? && log[i].event.campaign == c
  }

  ghost predicate HasCampaignReport(log: Log, r: CP.Report) {
    exists i :: 0 <= i < |log| && log[i].event.CampaignVerified? && log[i].event.report == r
  }

  ghost predicate HasWorkflowReport(log: Log, r: WP.Report) {
    exists i :: 0 <= i < |log| && log[i].event.WorkflowsVerified? && log[i].event.workflows == r
  }

  ghost predicate WasReviewed(log: Log, review: File<Review.Record>) {
    exists i :: 0 <= i < |log| && log[i].event.Reviewed? && log[i].event.review == review
  }

  ghost predicate HasReviewProvenance(log: Log, p: RP.Provenance) {
    exists i :: 0 <= i < |log| && log[i].event.Authenticated? && log[i].event.provenance == p
  }

  /** Stage `e` can run at `now` after `log`: it reads what the log holds and accepts it. */
  ghost predicate Enabled(w: World, log: Log, e: Event, now: Micros) {
    match e
    case Assembled(inp, c, reports) =>
      && Assembly.CanAssemble(w.k, inp, now) && Assembly.IsAssembly(w.k, inp, c.value)
      && Assembly.ReportsMatch(c.value, reports) && c.value == w.manifest(c.bytes)
    case CampaignVerified(c, d, inp, report) =>
      && WasAssembled(log, c) && inp.metadata == w.assemblyRun(inp.runId)
      && CampaignOk(w.k, c.value, d, now) && CP.CanVerify(w.k, c, d, inp, now)
      && report == CP.ReportOf(w.k, c, d, inp, now)
    case WorkflowsVerified(c, d, inp, report) =>
      && WasAssembled(log, c)
      && CampaignOk(w.k, c.value, d, now) && WP.CanVerify(c.value, d, inp)
          && WP.IsReport(w.k, c, d, inp.repository, now, report)
    case Reviewed(inp, d, review) =>
      && WasAssembled(log, inp.campaign) && HasCampaignReport(log, inp.provenance)
      && Review.CanReview(w.k, inp, d, now) && review.value == Review.ReviewOf(w.k, inp, d)
      && review.value == w.record(review.bytes)
    case Authenticated(c, review, d, proof, provenance) =>
      && WasAssembled(log, c) && WasReviewed(log, review)
      && CampaignOk(w.k, c.value, d, now) && Review.ReviewAccepted(w.k, review.value, c, d, now)
      && RP.CanAuthenticate(w.k, review, proof, now) && provenance == RP.ProvenanceOf(c, review, d, proof, now)
    case Decided(inp, d, ready) =>
      && WasAssembled(log, inp.campaign) && HasCampaignReport(log, inp.campaignProvenance)
      && HasWorkflowReport(log, inp.workflowProvenance) && WasReviewed(log, inp.review)
      && HasReviewProvenance(log, inp.reviewProvenance)
      && Promotion.Decidable(w.k, inp, d, now) && (ready <==> Promotion.Ready(w.k, inp, d, now))
  }

  ghost predicate Next(w: World, s: State, s': State) {
    && s.clock <= s'.clock
    && (s'.log == s.log || exists e :: Enabled(w, s.log, e, s'.clock) && s'.log == s.log + [Entry(e, s'.clock)])
  }

  ghost predicate IsRun(w: World, run: seq<State>) {
    && |run| > 0 && run[0].log == []
    && forall i | 0 < i < |run| :: Next(w, run[i - 1], run[i])
  }

  /** What every step keeps: each logged stage was enabled when it ran, in clock order. */
  ghost predicate Inv(w: World, s: State) {
    && (forall i | 0 <= i < |s.log| :: Enabled(w, s.log[..i], s.log[i].event, s.log[i].at))
    && (forall i, j | 0 <= i <= j < |s.log| :: s.log[i].at <= s.log[j].at)
    && (forall i | 0 <= i < |s.log| :: s.log[i].at <= s.clock)
  }

  lemma StepKeepsInv(w: World, s: State, s': State)
    requires Inv(w, s) && Next(w, s, s')
    ensures Inv(w, s')
  {
    hide Enabled;
    if s'.log != s.log {
      var e :| Enabled(w, s.log, e, s'.clock) && s'.log == s.log + [Entry(e, s'.clock)];
      forall i | 0 <= i < |s'.log| ensures Enabled(w, s'.log[..i], s'.log[i].event, s'.log[i].at) {
        if i < |s.log| {
          assert s'.log[..i] == s.log[..i];
        } else {
          assert s'.log[..i] == s.log;
        }
      }
    }
  }

  lemma {:induction false} RunKeepsInv(w: World, run: seq<State>, n: nat)
    requires IsRun(w, run) && n < |run|
    ensures Inv(w, run[n])
  {
    hide Enabled;
    if n > 0 {
      RunKeepsInv(w, run, n - 1);
      StepKeepsInv(w, run[n - 1], run[n]);
    }
  }
}
