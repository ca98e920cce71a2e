/**
  TestBase's patient helpers: reading the patient id from the page URL,
  and waiting for a deleted patient to disappear from the server.
 */
module Patients {
  import opened JavaText

  /** The query parameter the patient dashboard carries its id in. */
  const PATIENT_ID_MARKER := "patientId="

  /** patientIdFromUrl: the part of the current URL after the first
      "patientId=", and "" when the URL has none. */
  function PatientIdFromUrl(url: string): string {
    SubstringAfter(url, PATIENT_ID_MARKER)
  }

  /** A URL whose page part holds no '=' yields exactly the id that follows
      the marker, whatever that id contains (a later "patientId=" included). */
  lemma PatientIdFromUrlOf(page: string, id: string)
    requires '=' !in page
    ensures PatientIdFromUrl(page + PATIENT_ID_MARKER + id) == id
  {
    var m := PATIENT_ID_MARKER;
    var url := page + m + id;
    assert |m| == 10 && m[9] == '=';
    assert url[|page|..|page| + 10] == m;
    assert OccursAt(url, m, |page|);
    forall j | 0 <= j < |page|
      ensures !OccursAt(url, m, j)
    {
      if j + 9 < |page| {
        assert url[j + 9] == page[j + 9];
        assert page[j + 9] in page;
      } else {
        assert url[j + 9] == m[j + 9 - |page|];
        assert m[..9] == "patientId";
      }
      assert url[j + 9] != m[9];
    }
    assert url[|page| + 10..] == id;
  }

  // ---------------------------------------------------------------------
  // waitForPatientDeletion
  // ---------------------------------------------------------------------

  const POLL_INTERVAL_MS := 200
  const DELETION_TIMEOUT_MS := 30000

  /** One round of the wait: whether the server still reports the patient,
      and the clock read after the sleep that follows when it does. */
  datatype Poll = Poll(present: bool, clock: int)

  /** How the wait ends, with the index of the round it ends in. */
  datatype WaitResult = Deleted(at: nat) | TimedOut(at: nat)

  /** A round ends the wait: the patient is gone, or the time is up. */
  predicate Ends(start: int, p: Poll) {
    !p.present || p.clock - start > DELETION_TIMEOUT_MS
  }

  /** The clock advances by at least the sleep in every round. */
  predicate SleepsAdvanceClock(start: int, polls: seq<Poll>) {
    forall k :: 0 <= k < |polls| ==> polls[k].clock >= start + POLL_INTERVAL_MS * (k + 1)
  }

  /** waitForPatientDeletion: polls until the patient is gone, which ends
      the wait normally, or until more than 30000 ms have passed since the
      start while it is still there, which is a timeout. The wait ends in
      the first round that allows it. */
  method WaitForPatientDeletion(start: int, polls: seq<Poll>) returns (r: WaitResult)
    requires exists k :: 0 <= k < |polls| && Ends(start, polls[k])
    ensures r.at < |polls| && Ends(start, polls[r.at])
    ensures forall j :: 0 <= j < r.at ==> !Ends(start, polls[j])
    ensures r.Deleted? <==> !polls[r.at].present
    ensures r.TimedOut? ==> polls[r.at].clock - start > DELETION_TIMEOUT_MS
  {
    var i := 0;
    ghost var k :| 0 <= k < |polls| && Ends(start, polls[k]);
    while polls[i].present
      invariant 0 <= i <= k
      invariant forall j :: 0 <= j < i ==> !Ends(start, polls[j])
      decreases k - i
    {
      if polls[i].clock - start > DELETION_TIMEOUT_MS {
        return TimedOut(i);
      }
      i := i + 1;
    }
    r := Deleted(i);
  }

  /** Because every round sleeps 200 ms, the wait ends by round 150 at the
      latest once the clock advances with the sleeps. */
  lemma WaitEndsByRound150(start: int, polls: seq<Poll>)
    requires |polls| > 150 && SleepsAdvanceClock(start, polls)
    ensures Ends(start, polls[150])
    ensures exists k :: 0 <= k < |polls| && Ends(start, polls[k])
  {
    assert polls[150].clock >= start + 200 * 151;
  }

  /** The wait, when the clock advances with the sleeps, never needs more
      than 151 rounds. */
  method WaitWithAdvancingClock(start: int, polls: seq<Poll>) returns (r: WaitResult)
    requires |polls| > 150 && SleepsAdvanceClock(start, polls)
    ensures r.at <= 150
    ensures r.Deleted? <==> !polls[r.at].present
  {
    WaitEndsByRound150(start, polls);
    r := WaitForPatientDeletion(start, polls);
  }
}
