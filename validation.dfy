/** The validator: scans the studies in document order and stops at the
    first one whose weights do not total 100, or whose filter names a
    channel or platform outside the allow-lists. */
module Validation {
  import opened Wrappers
  import Doc = SeedData
  import opened Tables

  /** The running sum of the experiments' probability weights, left to right. */
  function TotalWeight(exps: seq<Doc.Experiment>): int
    decreases |exps|
  {
    if |exps| == 0 then 0
    else TotalWeight(exps[..|exps| - 1]) + exps[|exps| - 1].probabilityWeight
  }

  /** Which of the three checks rejected a study; the three diagnostics the source prints. */
  datatype Reason = WeightMismatch(total: int) | UnsupportedChannel | UnsupportedPlatform

  /** The first failing study, by position in the document, and why it failed. */
  datatype Rejection = Rejection(study: nat, reason: Reason)

  /** What a study must satisfy, stated name by name. */
  predicate StudyValid(s: Doc.Study, allowedChannels: set<string>)
  {
    && TotalWeight(s.experiments) == TotalProba
    && (forall c :: c in s.filter.channel ==> c in allowedChannels)
    && (forall p :: p in s.filter.platform ==> p in Platforms)
  }

  /** The three checks in the order the validator makes them: the weight
      total first, then the channel set, then the platform set. */
  function CheckStudy(s: Doc.Study, allowedChannels: set<string>): (r: Option<Reason>)
    ensures r == None <==> StudyValid(s, allowedChannels)
  {
    var total := TotalWeight(s.experiments);
    if total != TotalProba then Some(WeightMismatch(total))
    else if !((set c | c in s.filter.channel) <= allowedChannels) then Some(UnsupportedChannel)
    else if !((set p | p in s.filter.platform) <= Platforms) then Some(UnsupportedPlatform)
    else None
  }

  /** The scan from study i on. */
  function ScanFrom(studies: seq<Doc.Study>, allowedChannels: set<string>, i: nat): Option<Rejection>
    requires i <= |studies|
    decreases |studies| - i
  {
    if i == |studies| then None
    else
      match CheckStudy(studies[i], allowedChannels)
      case Some(reason) => Some(Rejection(i, reason))
      case None => ScanFrom(studies, allowedChannels, i + 1)
  }

  /** The verdict of the whole scan: None when the document is accepted. */
  function FirstRejection(studies: seq<Doc.Study>, allowedChannels: set<string>): Option<Rejection>
  {
    ScanFrom(studies, allowedChannels, 0)
  }

  lemma {:induction false} ScanFromNone(studies: seq<Doc.Study>, allowedChannels: set<string>, i: nat)
    requires i <= |studies|
    ensures ScanFrom(studies, allowedChannels, i) == None <==>
              forall k :: i <= k < |studies| ==> StudyValid(studies[k], allowedChannels)
    decreases |studies| - i
  {
    if i < |studies| {
      ScanFromNone(studies, allowedChannels, i + 1);
    }
  }

  lemma {:induction false} ScanFromSome(studies: seq<Doc.Study>, allowedChannels: set<string>, i: nat)
    requires i <= |studies|
    requires ScanFrom(studies, allowedChannels, i).Some?
    ensures var rej := ScanFrom(studies, allowedChannels, i).value;
            && i <= rej.study < |studies|
            && CheckStudy(studies[rej.study], allowedChannels) == Some(rej.reason)
            && forall k :: i <= k < rej.study ==> StudyValid(studies[k], allowedChannels)
    decreases |studies| - i
  {
    if CheckStudy(studies[i], allowedChannels).None? {
      ScanFromSome(studies, allowedChannels, i + 1);
    }
  }

  lemma {:induction false} ScanFromAt(studies: seq<Doc.Study>, allowedChannels: set<string>, i: nat, j: nat)
    requires i <= j < |studies|
    requires forall k :: i <= k < j ==> StudyValid(studies[k], allowedChannels)
    requires CheckStudy(studies[j], allowedChannels).Some?
    ensures ScanFrom(studies, allowedChannels, i) == Some(Rejection(j, CheckStudy(studies[j], allowedChannels).value))
    decreases j - i
  {
    if i < j {
      ScanFromAt(studies, allowedChannels, i + 1, j);
    }
  }

  /** The document is accepted exactly when every study passes all three checks. */
  lemma AcceptedIffEveryStudyValid(studies: seq<Doc.Study>, allowedChannels: set<string>)
    ensures FirstRejection(studies, allowedChannels) == None <==>
              forall k :: 0 <= k < |studies| ==> StudyValid(studies[k], allowedChannels)
  {
    ScanFromNone(studies, allowedChannels, 0);
  }

  /** A rejection names a failing study, its failing check, and every study before it is valid. */
  lemma RejectionIsFirstFailure(studies: seq<Doc.Study>, allowedChannels: set<string>, rej: Rejection)
    requires FirstRejection(studies, allowedChannels) == Some(rej)
    ensures rej.study < |studies|
    ensures !StudyValid(studies[rej.study], allowedChannels)
    ensures CheckStudy(studies[rej.study], allowedChannels) == Some(rej.reason)
    ensures forall k :: 0 <= k < rej.study ==> StudyValid(studies[k], allowedChannels)
  {
    ScanFromSome(studies, allowedChannels, 0);
  }

  /** The first study that fails is the one reported, whatever follows it. */
  lemma FirstFailureIsReported(studies: seq<Doc.Study>, allowedChannels: set<string>, j: nat)
    requires j < |studies|
    requires forall k :: 0 <= k < j ==> StudyValid(studies[k], allowedChannels)
    requires !StudyValid(studies[j], allowedChannels)
    ensures FirstRejection(studies, allowedChannels) == Some(Rejection(j, CheckStudy(studies[j], allowedChannels).value))
  {
    ScanFromAt(studies, allowedChannels, 0, j);
  }

  /** A bad weight total ends the scan as a weight mismatch, even when the
      same study also names an unsupported channel or platform. */
  lemma WeightMismatchEndsScan(studies: seq<Doc.Study>, allowedChannels: set<string>, j: nat)
    requires j < |studies|
    requires forall k :: 0 <= k < j ==> StudyValid(studies[k], allowedChannels)
    requires TotalWeight(studies[j].experiments) != TotalProba
    ensures FirstRejection(studies, allowedChannels) ==
              Some(Rejection(j, WeightMismatch(TotalWeight(studies[j].experiments))))
  {
    FirstFailureIsReported(studies, allowedChannels, j);
  }

  /** Any study naming a channel outside the allow-list, or a platform
      outside Platforms, gets the document rejected. */
  lemma OutsideNameRejected(studies: seq<Doc.Study>, allowedChannels: set<string>, j: nat, name: string)
    requires j < |studies|
    requires (name in studies[j].filter.channel && name !in allowedChannels) ||
             (name in studies[j].filter.platform && name !in Platforms)
    ensures FirstRejection(studies, allowedChannels).Some?
  {
    AcceptedIffEveryStudyValid(studies, allowedChannels);
  }

  /** The verdict depends only on the studies up to and including the first failing one. */
  lemma DecidedByPrefix(studies: seq<Doc.Study>, others: seq<Doc.Study>, allowedChannels: set<string>, rej: Rejection)
    requires FirstRejection(studies, allowedChannels) == Some(rej)
    requires rej.study < |studies| && rej.study < |others|
    requires studies[..rej.study + 1] == others[..rej.study + 1]
    ensures FirstRejection(others, allowedChannels) == Some(rej)
  {
    RejectionIsFirstFailure(studies, allowedChannels, rej);
    assert forall k :: 0 <= k <= rej.study ==> others[k] == studies[k] by {
      forall k | 0 <= k <= rej.study ensures others[k] == studies[k] {
        assert others[k] == others[..rej.study + 1][k];
      }
    }
    FirstFailureIsReported(others, allowedChannels, rej.study);
  }

  /** The validator's loops, against any channel allow-list. The returned
      rejection stands for the diagnostic the source prints before it
      returns False. */
  method ValidateAgainst(doc: Doc.SeedDocument, allowedChannels: set<string>)
    returns (ok: bool, rejection: Option<Rejection>)
    ensures rejection == FirstRejection(doc.studies, allowedChannels)
    ensures ok <==> rejection == None
    ensures ok <==> forall k :: 0 <= k < |doc.studies| ==> StudyValid(doc.studies[k], allowedChannels)
  {
    for i := 0 to |doc.studies|
      invariant forall k :: 0 <= k < i ==> StudyValid(doc.studies[k], allowedChannels)
    {
      var study := doc.studies[i];
      var total := 0;
      for j := 0 to |study.experiments|
        invariant total == TotalWeight(study.experiments[..j])
      {
        assert study.experiments[..j + 1][..j] == study.experiments[..j];
        total := total + study.experiments[j].probabilityWeight;
      }
      assert study.experiments[..|study.experiments|] == study.experiments;

      if total != TotalProba {
        FirstFailureIsReported(doc.studies, allowedChannels, i);
        return false, Some(Rejection(i, WeightMismatch(total)));
      }
      if !((set c | c in study.filter.channel) <= allowedChannels) {
        FirstFailureIsReported(doc.studies, allowedChannels, i);
        return false, Some(Rejection(i, UnsupportedChannel));
      }
      if !((set p | p in study.filter.platform) <= Platforms) {
        FirstFailureIsReported(doc.studies, allowedChannels, i);
        return false, Some(Rejection(i, UnsupportedPlatform));
      }
    }
    AcceptedIffEveryStudyValid(doc.studies, allowedChannels);
    return true, None;
  }

  /** validate(seed) as written: channels are checked against Channels. */
  method Validate(doc: Doc.SeedDocument) returns (ok: bool, rejection: Option<Rejection>)
    ensures rejection == FirstRejection(doc.studies, Channels)
    ensures ok <==> rejection == None
    ensures ok <==> forall k :: 0 <= k < |doc.studies| ==> StudyValid(doc.studies[k], Channels)
  {
    ok, rejection := ValidateAgainst(doc, Channels);
  }
}
