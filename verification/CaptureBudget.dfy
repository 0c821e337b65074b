/** The byte budget that the two output readers of a container command share. */
module CaptureBudget {
  type Bytes = seq<bv8>

  datatype Stream = Stdout | Stderr

  /** A chunk that one of the readers has read. */
  datatype Chunk = Chunk(source: Stream, bytes: Bytes)

  /** All that the schedule read from one stream. */
  function ReadFrom(schedule: seq<Chunk>, source: Stream): Bytes {
    if schedule == [] then []
    else
      var last := schedule[|schedule| - 1];
      ReadFrom(schedule[..|schedule| - 1], source) + (if last.source == source then last.bytes else [])
  }

  function TotalRead(schedule: seq<Chunk>): nat {
    if schedule == [] then 0 else TotalRead(schedule[..|schedule| - 1]) + |schedule[|schedule| - 1].bytes|
  }

  class Budget {
    var remaining: nat
    var truncated: bool

    constructor (limit: nat)
      ensures remaining == limit && !truncated
    {
      remaining, truncated := limit, false;
    }

    /** One turn of a reader under the lock: how many bytes of the chunk it may keep. */
    method Take(read: nat) returns (keep: nat)
      modifies this
      ensures keep <= read && keep + remaining == old(remaining)
      ensures truncated == (old(truncated) || keep < read)
      ensures keep < read ==> remaining == 0
    {
      keep := if read < remaining then read else remaining;
      remaining := remaining - keep;
      truncated := truncated || keep < read;
    }
  }

  /** The two readers in any interleaving of their chunks: nothing is lost from the budget, the budget is
      used up before anything is dropped, each buffer is a prefix of its own stream, and truncation is
      reported exactly when more was read than fits. */
  method Capture(limit: nat, schedule: seq<Chunk>) returns (stdout: Bytes, stderr: Bytes, remaining: nat,
                 truncated: bool)
    ensures |stdout| + |stderr| + remaining == limit
    ensures |stdout| + |stderr| == if TotalRead(schedule) < limit then TotalRead(schedule) else limit
    ensures stdout <= ReadFrom(schedule, Stdout) && stderr <= ReadFrom(schedule, Stderr)
    ensures truncated <==> TotalRead(schedule) > limit
    ensures !truncated ==> stdout == ReadFrom(schedule, Stdout) && stderr == ReadFrom(schedule, Stderr)
  {
    var budget := new Budget(limit);
    stdout, stderr := [], [];
    for i := 0 to |schedule|
      invariant |stdout| + |stderr| + budget.remaining == limit
      invariant stdout <= ReadFrom(schedule[..i], Stdout) && stderr <= ReadFrom(schedule[..i], Stderr)
      invariant |ReadFrom(schedule[..i], Stdout)| + |ReadFrom(schedule[..i], Stderr)| == TotalRead(schedule[..i])
      invariant budget.truncated <==> TotalRead(schedule[..i]) > limit
      invariant budget.truncated ==> budget.remaining == 0
      invariant !budget.truncated ==>
                  stdout == ReadFrom(schedule[..i], Stdout) && stderr == ReadFrom(schedule[..i], Stderr)
    {
      var chunk := schedule[i];
      assert schedule[..i + 1][..i] == schedule[..i];
      var keep := budget.Take(|chunk.bytes|);
      if chunk.source.Stdout? {
        stdout := stdout + chunk.bytes[..keep];
      } else {
        stderr := stderr + chunk.bytes[..keep];
      }
    }
    assert schedule[..|schedule|] == schedule;
    remaining, truncated := budget.remaining, budget.truncated;
  }
}
