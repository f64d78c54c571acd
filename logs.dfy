/** The bounded log collection of `getJobLogs` (monitor/events.go): at most
    1000 receptions from the job's log stream, each entry appended to the
    result with a line feed. */
module Logs {
  import opened Core
  import opened Strconv

  const MaxLines := 1000

  /** The unreachable notice that would mark truncated logs. */
  const TruncationNotice := "--- !!! THESE LOGS HAVE BEEN TRUNCATED AFTER " + FormatInt(MaxLines) + " LINES !!! ---\n"

  /** What one `select` of the collection loop receives: an entry, the close
      of the entry channel, a value on the error channel (which may be a nil
      error, `None`), the close of the error channel, or the cancellation of
      the context (with the context's error). */
  datatype StreamStep =
    | Entry(message: string)
    | EntriesClosed
    | StreamError(err: Option<string>)
    | ErrorsClosed
    | Cancelled(cause: string)
  {
    /** A reception after which the loop does not go on. */
    predicate Stops() {
      EntriesClosed? || StreamError? || Cancelled?
    }
  }

  /** The first reception, from `from` on and below the bound, after which the
      loop stops; the bound when there is none. */
  function FirstStop(steps: nat -> StreamStep, from: nat): (r: nat)
    requires from <= MaxLines
    ensures from <= r <= MaxLines
    ensures forall j :: from <= j < r ==> !steps(j).Stops()
    ensures r < MaxLines ==> steps(r).Stops()
    decreases MaxLines - from
  {
    if from == MaxLines then MaxLines
    else if steps(from).Stops() then from
    else FirstStop(steps, from + 1)
  }

  /** The first stop is the one reception that stops with no stop before it. */
  lemma FirstStopAt(steps: nat -> StreamStep, k: nat)
    requires k <= MaxLines
    requires forall j :: 0 <= j < k ==> !steps(j).Stops()
    requires k < MaxLines ==> steps(k).Stops()
    ensures FirstStop(steps, 0) == k
  {
  }

  /** The entries among the receptions `lo` to `hi - 1`, each followed by a line feed. */
  function EntriesText(steps: nat -> StreamStep, lo: nat, hi: nat): string
    requires lo <= hi
    decreases hi - lo
  {
    if lo == hi then ""
    else EntriesText(steps, lo, hi - 1) + (if steps(hi - 1).Entry? then steps(hi - 1).message + "\n" else "")
  }

  /** The messages among the receptions `lo` to `hi - 1`. */
  function EntryMessages(steps: nat -> StreamStep, lo: nat, hi: nat): seq<string>
    requires lo <= hi
    decreases hi - lo
  {
    if lo == hi then []
    else EntryMessages(steps, lo, hi - 1) + (if steps(hi - 1).Entry? then [steps(hi - 1).message] else [])
  }

  /** Each message followed by a line feed. */
  function JoinLines(lines: seq<string>): string {
    if lines == [] then "" else JoinLines(lines[..|lines| - 1]) + lines[|lines| - 1] + "\n"
  }

  /** What the collection yields, as a closed form: the text of the entries
      received before the first stop, unless that stop is a value on the error
      channel or a cancellation, which yields an empty text and that error
      (no error at all for a nil value on the error channel). */
  function Collected(steps: nat -> StreamStep): (string, Option<string>) {
    var k := FirstStop(steps, 0);
    if k < MaxLines && steps(k).StreamError? then ("", steps(k).err)
    else if k < MaxLines && steps(k).Cancelled? then ("", Some(steps(k).cause))
    else (EntriesText(steps, 0, k), None)
  }

  /** The collection loop of `getJobLogs`, once the stream is open. */
  method CollectLogs(steps: nat -> StreamStep) returns (logs: string, err: Option<string>)
    ensures (logs, err) == Collected(steps)
  {
    var text := "";
    var i := 0;
    while i < MaxLines
      invariant 0 <= i <= MaxLines
      invariant forall j :: 0 <= j < i ==> !steps(j).Stops()
      invariant text == EntriesText(steps, 0, i)
    {
      var step := steps(i);
      if step.EntriesClosed? {
        break;
      } else if step.Entry? {
        text := text + step.message + "\n";
      } else if step.StreamError? {
        FirstStopAt(steps, i);
        return "", step.err;
      } else if step.Cancelled? {
        FirstStopAt(steps, i);
        return "", Some(step.cause);
      }
      i := i + 1;
    }
    FirstStopAt(steps, i);
    if i > MaxLines {
      text := text + TruncationNotice;
    }
    return text, None;
  }

  /** The collected text is the received messages, each followed by a line feed. */
  lemma {:induction false} EntriesTextIsJoin(steps: nat -> StreamStep, lo: nat, hi: nat)
    requires lo <= hi
    ensures EntriesText(steps, lo, hi) == JoinLines(EntryMessages(steps, lo, hi))
    decreases hi - lo
  {
    if lo < hi {
      EntriesTextIsJoin(steps, lo, hi - 1);
      var prev := EntryMessages(steps, lo, hi - 1);
      if steps(hi - 1).Entry? {
        var m := steps(hi - 1).message;
        var lines := prev + [m];
        assert lines[..|lines| - 1] == prev;
        assert JoinLines(lines) == JoinLines(prev) + m + "\n";
        assert EntriesText(steps, lo, hi) == EntriesText(steps, lo, hi - 1) + (m + "\n");
        assert EntryMessages(steps, lo, hi) == lines;
      } else {
        assert EntryMessages(steps, lo, hi) == prev + [] == prev;
        assert EntriesText(steps, lo, hi) == EntriesText(steps, lo, hi - 1) + "";
      }
    }
  }

  lemma {:induction false} EntryMessagesBound(steps: nat -> StreamStep, lo: nat, hi: nat)
    requires lo <= hi
    ensures |EntryMessages(steps, lo, hi)| <= hi - lo
    decreases hi - lo
  {
    if lo < hi {
      EntryMessagesBound(steps, lo, hi - 1);
    }
  }

  /** The collected logs are at most 1000 messages, each followed by a line
      feed; so it never carries the truncation notice by itself. */
  lemma CollectedIsBounded(steps: nat -> StreamStep)
    ensures Collected(steps).1.None? ==>
              exists lines: seq<string> :: |lines| <= MaxLines && Collected(steps).0 == JoinLines(lines)
  {
    var k := FirstStop(steps, 0);
    EntriesTextIsJoin(steps, 0, k);
    EntryMessagesBound(steps, 0, k);
    if Collected(steps).1.None? {
      if k < MaxLines && steps(k).StreamError? {
        var lines: seq<string> := [];
        assert |lines| <= MaxLines && Collected(steps).0 == JoinLines(lines);
      } else {
        var lines := EntryMessages(steps, 0, k);
        assert |lines| <= MaxLines && Collected(steps).0 == JoinLines(lines);
      }
    }
  }

  /** A value on the error channel or a cancellation among the first 1000
      receptions, before the entry channel closes, discards every entry
      received; a nil error value discards them without reporting an error. */
  lemma ErrorDiscardsLogs(steps: nat -> StreamStep, k: nat)
    requires k < MaxLines && (steps(k).StreamError? || steps(k).Cancelled?)
    requires forall j :: 0 <= j < k ==> !steps(j).Stops()
    ensures Collected(steps) == ("", if steps(k).StreamError? then steps(k).err else Some(steps(k).cause))
  {
    FirstStopAt(steps, k);
  }
}
