/**
  The sidecar's line reader: socket data is appended to a buffer and complete
  lines are handled (sidecar/src/rpc-server.ts).
 */
module RpcServers {
  import opened Basics
  import opened Text
  import opened Framing

  /** What one record adds to the lines handled: nothing if it is blank. */
  function One(record: string, trim: string -> string): seq<string> {
    if trim(record) != [] then [trim(record)] else []
  }

  /** The lines handled among some records: trimmed, blank ones skipped. */
  function Handled(records: seq<string>, trim: string -> string): seq<string> {
    if records == [] then [] else One(records[0], trim) + Handled(records[1..], trim)
  }

  lemma {:induction false} HandledAppend(a: seq<string>, b: seq<string>, trim: string -> string)
    ensures Handled(a + b, trim) == Handled(a, trim) + Handled(b, trim)
    decreases |a|
  {
    if a == [] {
      assert a + b == b;
    } else {
      assert (a + b)[1..] == a[1..] + b;
      HandledAppend(a[1..], b, trim);
    }
  }

  /** The lines handled after a buffer was worked off, and what is left of it. */
  function Consume(lines: seq<string>, buffer: string, trim: string -> string): (seq<string>, string)
    decreases |buffer|
  {
    match Find(buffer, "\n", 0)
    case None => (lines, buffer)
    case Some(k) => Consume(lines + One(buffer[..k], trim), buffer[k + 1..], trim)
  }

  lemma {:induction false} ConsumeIs(lines: seq<string>, buffer: string, trim: string -> string)
    ensures Consume(lines, buffer, trim) == (lines + Handled(Records(buffer, "\n"), trim), Rest(buffer, "\n"))
    decreases |buffer|
  {
    match Find(buffer, "\n", 0) {
      case None => assert lines + [] == lines;
      case Some(k) =>
        var one, later := One(buffer[..k], trim), Records(buffer[k + 1..], "\n");
        assert Records(buffer, "\n")[1..] == later;
        ConsumeIs(lines + one, buffer[k + 1..], trim);
        assert (lines + one) + Handled(later, trim) == lines + (one + Handled(later, trim));
    }
  }

  class RpcServer {
    var buffer: string
    var handled: seq<string> // the lines passed on, in order
    const trim: string -> string

    constructor (trim: string -> string)
      ensures buffer == "" && handled == [] && this.trim == trim
    {
      this.trim := trim;
      buffer, handled := "", [];
    }

    method ProcessBuffer()
      modifies this
      ensures buffer == Rest(old(buffer), "\n")
      ensures handled == old(handled) + Handled(Records(old(buffer), "\n"), trim)
    {
      ConsumeIs(handled, buffer, trim);
      var newline := Find(buffer, "\n", 0);
      while newline.Some?
        invariant newline == Find(buffer, "\n", 0)
        invariant Consume(handled, buffer, trim) == Consume(old(handled), old(buffer), trim)
        decreases |buffer|
      {
        var line := trim(buffer[..newline.value]);
        ghost var before := handled;
        if |line| > 0 {
          handled := handled + [line];
        }
        assert handled == before + One(buffer[..newline.value], trim);
        buffer := buffer[newline.value + 1..];
        newline := Find(buffer, "\n", 0);
      }
    }

    /** One data event of the socket. */
    method OnData(chunk: string)
      modifies this
      ensures buffer == Rest(old(buffer) + chunk, "\n")
      ensures handled == old(handled) + Handled(Records(old(buffer) + chunk, "\n"), trim)
    {
      buffer := buffer + chunk;
      ProcessBuffer();
    }
  }

  /** However the bytes are cut into events, the lines handled and the bytes left are those of the whole stream. */
  method Receive(chunks: seq<string>, trim: string -> string) returns (server: RpcServer)
    ensures server.buffer == Rest(Concat(chunks), "\n")
    ensures server.handled == Handled(Records(Concat(chunks), "\n"), trim)
  {
    server := new RpcServer(trim);
    assert Records([], "\n") == [] && Rest([], "\n") == [] && Concat([]) == [];
    for i := 0 to |chunks|
      invariant server.trim == trim && server.buffer == Rest(Concat(chunks[..i]), "\n")
      invariant server.handled == Handled(Records(Concat(chunks[..i]), "\n"), trim)
    {
      ghost var before := Concat(chunks[..i]);
      assert chunks[..i + 1] == chunks[..i] + [chunks[i]];
      ConcatSnoc(chunks[..i], chunks[i]);
      SplitAppend(before, chunks[i], "\n");
      HandledAppend(Records(before, "\n"), Records(Rest(before, "\n") + chunks[i], "\n"), trim);
      server.OnData(chunks[i]);
    }
    assert chunks[..|chunks|] == chunks;
  }

  function Trimmed(records: seq<string>, trim: string -> string): (r: seq<string>)
    ensures |r| == |records| && forall i :: 0 <= i < |r| ==> r[i] == trim(records[i])
  {
    seq(|records|, i requires 0 <= i < |records| => trim(records[i]))
  }

  predicate NotBlank(line: string) { line != "" }

  /** The lines handled are the trimmed records that are not empty, in order. */
  lemma {:induction false} HandledIsFilter(records: seq<string>, trim: string -> string)
    ensures Handled(records, trim) == Filter(Trimmed(records, trim), NotBlank)
  {
    if records != [] {
      HandledIsFilter(records[1..], trim);
      var first := [trim(records[0])];
      assert Trimmed(records, trim) == first + Trimmed(records[1..], trim) && first[..0] == [];
      FilterAppend(first, Trimmed(records[1..], trim), NotBlank);
      assert Filter(first, NotBlank) == One(records[0], trim);
    }
  }
}
