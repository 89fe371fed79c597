// A generate_text run through its retries: which attempt it ends at, and how.
module Outcome {
  import opened Basics
  import opened Rows
  import opened GenerateText
  import opened Protocol
  import opened Safety

  // A worker finishes an attempt of this run only with what the job returned.
  ghost predicate FinishesAsRun(p: Payload, s: System, step: Step, id: RunId)
    requires p.Valid()
  {
    id in s.runs && id in Touched(s, step) && Touched(s, step)[id].Finished? ==>
      var res := Result(p, s.runs[id].attempt, None);
      res.Ok? && Touched(s, step)[id] == Finished(Succeeded, Some(res.output), None)
  }

  // Moreover, the job's failures are all that ends an attempt otherwise: no
  // worker crashes, is shut down or times out, and the API does not fail the run.
  ghost predicate Uneventful(p: Payload, s: System, step: Step, id: RunId)
    requires p.Valid()
  {
    && FinishesAsRun(p, s, step, id)
    && (id in s.runs && id in Touched(s, step) ==>
         && var ev := Touched(s, step)[id];
         && !ev.Reaped? && !ev.Released? && !ev.FailedQueued?
         && (ev.FailedAttempt? ==> Result(p, s.runs[id].attempt, None).Err?))
  }

  ghost predicate AllFinishAsRun(c: Config, p: Payload, s: System, steps: seq<Step>, id: RunId)
    requires p.Valid() && Legal(c, s, steps)
    decreases |steps|
  {
    steps == [] || (FinishesAsRun(p, s, steps[0], id) && AllFinishAsRun(c, p, Next(s, steps[0]), steps[1..], id))
  }

  ghost predicate AllUneventful(c: Config, p: Payload, s: System, steps: seq<Step>, id: RunId)
    requires p.Valid() && Legal(c, s, steps)
    decreases |steps|
  {
    steps == [] || (Uneventful(p, s, steps[0], id) && AllUneventful(c, p, Next(s, steps[0]), steps[1..], id))
  }

  // ---- What a SUCCEEDED row means ----

  ghost predicate SucceededByJob(p: Payload, r: Run)
    requires p.Valid()
  {
    r.status.Succeeded? ==>
      p.failAt == 0 && r.attempt > p.failAttempts && r.output == Some(Numbered(p.Prefix(), p.lines))
  }

  lemma SucceededStays(c: Config, p: Payload, s: System, step: Step, id: RunId)
    requires p.Valid() && WellFormed(s) && Enabled(c, s, step) && FinishesAsRun(p, s, step, id)
    requires id in s.runs ==> SucceededByJob(p, s.runs[id])
    requires id in Next(s, step).runs
    ensures SucceededByJob(p, Next(s, step).runs[id])
  {
    hide Next, Enabled, Touched, Numbered;
    if id in s.runs {
      StepOnRow(c, s, step, id);
      if id in Touched(s, step) && Touched(s, step)[id].Finished? {
        SucceedsWhen(p, s.runs[id].attempt, None);
      }
    } else {
      OnlyCreateAdds(c, s, step, id);
    }
  }

  lemma OnlyCreateAdds(c: Config, s: System, step: Step, id: RunId)
    requires WellFormed(s) && Enabled(c, s, step) && id !in s.runs && id in Next(s, step).runs
    ensures step.Create? && step.job in s.retries
    ensures Next(s, step).runs[id] == NewRun(step.job, step.scheduledTime, step.trigger, s.now)
  {
    hide After, Touched;
  }

  // ---- Through the retries ----

  // No attempt is started that is not needed, and the run ends at the first
  // that succeeds or at the last there is.
  ghost predicate OnTrack(p: Payload, r: Run, maxRetries: nat)
    requires p.Valid()
  {
    && !r.status.Cancelled?
    && r.attempt <= maxRetries + 1
    && (p.failAt == 0 ==> r.attempt <= p.failAttempts + 1)
    && SucceededByJob(p, r)
    && (r.status.Failed? ==> r.attempt == maxRetries + 1 && (p.failAt > 0 || r.attempt <= p.failAttempts))
  }

  lemma OnTrackStays(c: Config, p: Payload, s: System, step: Step, id: RunId)
    requires p.Valid() && WellFormed(s) && Enabled(c, s, step) && Uneventful(p, s, step, id)
    requires id in s.runs ==> OnTrack(p, s.runs[id], s.retries[s.runs[id].jobId])
    requires id in Next(s, step).runs
    ensures Next(s, step).runs[id].jobId in Next(s, step).retries
    ensures OnTrack(p, Next(s, step).runs[id], Next(s, step).retries[Next(s, step).runs[id].jobId])
  {
    SucceededStays(c, p, s, step, id);
    StepFields(s, step);
    hide Next, Enabled, Touched, Numbered, SucceededByJob;
    if id in s.runs {
      StepFrame(c, s, step, id);
      StepOnRow(c, s, step, id);
      SucceedsWhen(p, s.runs[id].attempt, None);
    } else {
      OnlyCreateAdds(c, s, step, id);
    }
  }

  lemma {:induction false} OnTrackThrough(c: Config, p: Payload, s: System, steps: seq<Step>, id: RunId)
    requires p.Valid() && c.Valid() && Inv(c, s) && Legal(c, s, steps) && AllUneventful(c, p, s, steps, id)
    requires id in s.runs ==> OnTrack(p, s.runs[id], s.retries[s.runs[id].jobId])
    requires id in Play(c, s, steps).runs
    ensures var t := Play(c, s, steps); t.runs[id].jobId in t.retries && OnTrack(p, t.runs[id], t.retries[t.runs[id].jobId])
    decreases |steps|
  {
    hide Inv, Enabled, Next, OnTrack, Uneventful;
    InvFields(c, s);
    if steps != [] {
      InvKept(c, s, steps[0]);
      InvFields(c, Next(s, steps[0]));
      if id in Next(s, steps[0]).runs {
        OnTrackStays(c, p, s, steps[0], id);
      }
      OnTrackThrough(c, p, Next(s, steps[0]), steps[1..], id);
    }
  }

  lemma InvFields(c: Config, s: System)
    requires Inv(c, s)
    ensures WellFormed(s)
  {
  }

  // With nothing but the job's own failures, the run ends SUCCEEDED at attempt
  // fail_attempts + 1 if fail_at is zero and its retries reach that far, and
  // otherwise FAILED at attempt max_retries + 1.
  lemma EndsWhereRetriesReach(c: Config, p: Payload, s0: System, steps: seq<Step>, id: RunId)
    requires p.Valid() && c.Valid() && Initial(s0) && Legal(c, s0, steps) && AllUneventful(c, p, s0, steps, id)
    requires id in Play(c, s0, steps).runs && Terminal(Play(c, s0, steps).runs[id])
    ensures var s := Play(c, s0, steps);
            && s.runs[id].jobId in s.retries
            && var r, maxRetries := s.runs[id], s.retries[s.runs[id].jobId];
            && (r.status.Succeeded? <==> p.failAt == 0 && p.failAttempts <= maxRetries)
            && (r.status.Succeeded? ==> r.attempt == p.failAttempts + 1
                                        && r.output.Some? && IsListing(r.output.value, if p.prefix == "" then "line" else p.prefix, p.lines))
            && (!r.status.Succeeded? ==> r.status.Failed? && r.attempt == maxRetries + 1)
  {
    hide Legal, Play, Enabled, AllUneventful, Numbered, IsListing;
    NumberedIsListing(p.Prefix(), p.lines);
    OnTrackThrough(c, p, s0, steps, id);
  }

  lemma {:induction false} SucceededThrough(c: Config, p: Payload, s: System, steps: seq<Step>, id: RunId)
    requires p.Valid() && c.Valid() && Inv(c, s) && Legal(c, s, steps) && AllFinishAsRun(c, p, s, steps, id)
    requires id in s.runs ==> SucceededByJob(p, s.runs[id])
    requires id in Play(c, s, steps).runs
    ensures SucceededByJob(p, Play(c, s, steps).runs[id])
    decreases |steps|
  {
    hide Inv, Enabled, Next, SucceededByJob, FinishesAsRun;
    InvFields(c, s);
    if steps != [] {
      InvKept(c, s, steps[0]);
      if id in Next(s, steps[0]).runs {
        SucceededStays(c, p, s, steps[0], id);
      }
      SucceededThrough(c, p, Next(s, steps[0]), steps[1..], id);
    }
  }

  // Whatever else happens, reaps, releases and lost replies included: a run is
  // SUCCEEDED only past fail_attempts, with fail_at zero and every line written.
  lemma SucceededMeansEveryLine(c: Config, p: Payload, s0: System, steps: seq<Step>, id: RunId)
    requires p.Valid() && c.Valid() && Initial(s0) && Legal(c, s0, steps) && AllFinishAsRun(c, p, s0, steps, id)
    requires id in Play(c, s0, steps).runs && Play(c, s0, steps).runs[id].status.Succeeded?
    ensures var r := Play(c, s0, steps).runs[id];
            p.failAt == 0 && r.attempt > p.failAttempts && r.output.Some? && IsListing(r.output.value, if p.prefix == "" then "line" else p.prefix, p.lines)
  {
    hide Legal, Play, Enabled, AllFinishAsRun, Numbered, IsListing;
    NumberedIsListing(p.Prefix(), p.lines);
    SucceededThrough(c, p, s0, steps, id);
  }
}
