/** The verdict on a tampered identifier (internal/lua_engine/checks/access/idor_oracle.go).
    What the patterns for personal data find in a body is a parameter. */
module Idor {
  import opened Similarities

  datatype Confidence = None | Low | Medium | High

  // The one-line explanations a verdict can carry.
  datatype Reason =
    | NotA2xxPair | SameAsBaseline | ControlIsBaseline | GenericBody
    | RejectedWithMarkers | Rejected | PossibleExposure

  datatype Verdict = Verdict(vulnerable: bool, confidence: Confidence, reason: Reason,
                             tamperedSim: real, controlSim: real, tamperedControlSim: real, piiHints: seq<string>)

  predicate Is2xx(status: int) { 200 <= status < 300 }

  // The responses carry the signal: the tampered identifier was accepted and
  // changed the page, and the control was refused or is a third page.
  predicate Exposed(baseline: Snapshot, tampered: Snapshot, control: Snapshot) {
    && Is2xx(baseline.status) && Is2xx(tampered.status)
    && !SamePage(baseline.body, tampered.body)
    && (Is2xx(control.status) ==> !SamePage(baseline.body, control.body) && !SamePage(tampered.body, control.body))
  }

  method IdorJudge(baseline: Snapshot, tampered: Snapshot, control: Snapshot, hintsIn: string -> seq<string>)
      returns (res: Verdict)
    ensures res.vulnerable <==> Exposed(baseline, tampered, control)
    ensures res.vulnerable <==> res.confidence != None
    ensures res.confidence == Low <==> res.vulnerable && Is2xx(control.status)
    ensures res.confidence == High <==> res.vulnerable && !Is2xx(control.status) && hintsIn(tampered.body) != []
    ensures res.piiHints == if res.vulnerable then hintsIn(tampered.body) else []
    // Every explanation is given exactly when it is true of the responses.
    ensures res.reason == NotA2xxPair <==> !Is2xx(baseline.status) || !Is2xx(tampered.status)
    ensures res.reason == SameAsBaseline ==> SamePage(baseline.body, tampered.body)
    ensures res.reason == ControlIsBaseline ==>
              Is2xx(control.status) && SamePage(baseline.body, control.body) && !SamePage(baseline.body, tampered.body)
    ensures res.reason == GenericBody ==>
              Is2xx(control.status) && SamePage(tampered.body, control.body) && !SamePage(baseline.body, tampered.body)
    ensures res.vulnerable <==> res.reason in {RejectedWithMarkers, Rejected, PossibleExposure}
    ensures res.reason == RejectedWithMarkers <==> res.confidence == High
    ensures res.reason == PossibleExposure <==> res.confidence == Low
    // The scores shown are those of the pairs compared, or zero when not compared.
    ensures res.tamperedSim == if res.reason == NotA2xxPair then 0.0 else Score(baseline.body, tampered.body)
    ensures res.controlSim == if res.reason == NotA2xxPair then 0.0 else Score(baseline.body, control.body)
    ensures res.tamperedControlSim ==
            if res.reason == GenericBody || res.confidence == Low then Score(tampered.body, control.body) else 0.0
  {
    res := Verdict(false, None, NotA2xxPair, 0.0, 0.0, 0.0, []);
    if !Is2xx(baseline.status) || !Is2xx(tampered.status) { return; }
    var tamperedSim := Similarity(baseline.body, tampered.body);
    var controlSim := Similarity(baseline.body, control.body);
    res := res.(tamperedSim := tamperedSim, controlSim := controlSim);
    if res.tamperedSim >= SIMILARITY_THRESHOLD {
      res := res.(reason := SameAsBaseline);
      return;
    }
    var controlRejected := !Is2xx(control.status);
    var controlMatchedBaseline := Is2xx(control.status) && res.controlSim >= SIMILARITY_THRESHOLD;
    if controlMatchedBaseline {
      res := res.(reason := ControlIsBaseline);
      return;
    }
    if Is2xx(control.status) {
      var tamperedControlSim := Similarity(tampered.body, control.body);
      res := res.(tamperedControlSim := tamperedControlSim);
      if res.tamperedControlSim >= SIMILARITY_THRESHOLD {
        res := res.(reason := GenericBody);
        return;
      }
    }
    res := res.(vulnerable := true, piiHints := hintsIn(tampered.body));
    if controlRejected && |res.piiHints| > 0 {
      res := res.(confidence := High, reason := RejectedWithMarkers);
    } else if controlRejected {
      res := res.(confidence := Medium, reason := Rejected);
    } else {
      res := res.(confidence := Low, reason := PossibleExposure);
    }
  }

  // The signal by status and byte counts: baseline and tampered answer with 200
  // to 299 and differ, and the control answers with anything else, a redirect or
  // a missing page included, or differs from both.
  lemma ExposedMeans(baseline: Snapshot, tampered: Snapshot, control: Snapshot)
    ensures Exposed(baseline, tampered, control) <==>
            && 200 <= baseline.status <= 299 && 200 <= tampered.status <= 299
            && !CloseEnough(baseline.body, tampered.body)
            && (|| control.status < 200 || control.status > 299
                || (!CloseEnough(baseline.body, control.body) && !CloseEnough(tampered.body, control.body)))
  {
    CloseEnoughIsSamePage(baseline.body, tampered.body);
    CloseEnoughIsSamePage(baseline.body, control.body);
    CloseEnoughIsSamePage(tampered.body, control.body);
  }

  // A control that is redirected or not found counts as refused, whatever its body.
  lemma RefusedControl(baseline: Snapshot, tampered: Snapshot, body: string)
    ensures Exposed(baseline, tampered, Snapshot(302, body)) == Exposed(baseline, tampered, Snapshot(404, body))
    ensures Exposed(baseline, tampered, Snapshot(404, body)) <==>
            && 200 <= baseline.status <= 299 && 200 <= tampered.status <= 299
            && !CloseEnough(baseline.body, tampered.body)
  {
    ExposedMeans(baseline, tampered, Snapshot(302, body));
    ExposedMeans(baseline, tampered, Snapshot(404, body));
  }

  // A finding is never raised on equal bodies.
  lemma ExposedMeansDistinct(baseline: Snapshot, tampered: Snapshot, control: Snapshot)
    requires Exposed(baseline, tampered, control)
    ensures baseline.body != tampered.body
    ensures Is2xx(control.status) ==> control.body != baseline.body && control.body != tampered.body
  {
    EqualBodiesAreSamePage(baseline.body);
    EqualBodiesAreSamePage(tampered.body);
  }

  // With three accepted responses the signal does not depend on their roles.
  lemma ExposedIgnoresRoles(x: Snapshot, y: Snapshot, z: Snapshot)
    requires Is2xx(x.status) && Is2xx(y.status) && Is2xx(z.status)
    ensures Exposed(x, y, z) == Exposed(y, x, z) == Exposed(x, z, y) == Exposed(z, y, x)
  {
    SamePageIsSymmetric(x.body, y.body);
    SamePageIsSymmetric(x.body, z.body);
    SamePageIsSymmetric(y.body, z.body);
  }

  // An endpoint that serves one page for every identifier but the seed's, or
  // for every identifier, is never flagged.
  lemma GenericEndpointIsQuiet(baseline: Snapshot, tampered: Snapshot, control: Snapshot)
    requires Is2xx(control.status) && (control.body == tampered.body || control.body == baseline.body)
    ensures !Exposed(baseline, tampered, control)
  {
    EqualBodiesAreSamePage(control.body);
  }

  // Records rendered by one template, with the control refused: flagged
  // exactly when the records are long enough against the shared markup.
  lemma TemplatedRecords(status: int, header: string, x: string, y: string, footer: string, control: Snapshot)
    requires Is2xx(status) && !Is2xx(control.status)
    requires x != "" && y != "" && x[0] != y[0] && x[|x| - 1] != y[|y| - 1]
    ensures Exposed(Snapshot(status, header + x + footer), Snapshot(status, header + y + footer), control) <==>
            12 * (|header| + |footer|) < 388 * Max(|x|, |y|) - 100 * Min(|x|, |y|)
  {
    TemplatedPages(header, x, y, footer);
  }
}
