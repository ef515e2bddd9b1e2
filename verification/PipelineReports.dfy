/** The writes of the progress reporter are the reports of the delivery protocol. */
module PipelineReports {
  import opened Protocol
  import opened Chunks
  import opened Progress
  import opened Transcriber

  /** Whatever the recogniser returns, every value an attempt issues is one the protocol admits as a report. */
  lemma {:induction false} IssuedAreReports(s: State, w: nat, chunks: seq<Chunk>, heard: seq<Hearing>, i: nat)
    requires IsBusy(s, w) && s.workers[w].phase.Running? && s.workers[w].body.JobBody?
    requires |chunks| == |heard|
    ensures var issued := HeardAll(START, AllFractions(chunks, heard, |chunks|)).issued;
            i < |issued| ==> Enabled(s, Report(w, issued[i]))
  {
    AttemptWrites(chunks, heard);
  }
}
