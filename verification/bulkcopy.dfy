/**
  The client-side bulk copy round trip: the result of a query is exported in the
  server's binary COPY format into a fresh temporary file, the file is rewound, and
  its whole content is streamed back into a table. The binary format, identifier
  quoting and parameter substitution belong to the server and the driver library
  and are parameters here.
 */
module BulkCopy {
  import opened Base
  import opened Connection

  // ---------------------------------------------------------------------------
  // The scratch buffer: a binary file with a read/write position.

  datatype Buffer = Buffer(data: seq<byte>, pos: nat)

  /** `TemporaryFile('wb+')`: a new, empty file positioned at its start. */
  const Fresh := Buffer([], 0)

  function Zeros(n: nat): (z: seq<byte>)
    ensures |z| == n && forall i :: 0 <= i < n ==> z[i] == 0
  {
    if n == 0 then [] else Zeros(n - 1) + [0]
  }

  /** The bytes before the position, the gap past the end of the file reading as zeros. */
  function Head(b: Buffer): (h: seq<byte>)
    ensures |h| == b.pos
  {
    if b.pos <= |b.data| then b.data[..b.pos] else b.data + Zeros(b.pos - |b.data|)
  }

  /** The bytes that survive past the end of an `n`-byte write at the position. */
  function Tail(b: Buffer, n: nat): seq<byte>
  {
    if b.pos + n < |b.data| then b.data[b.pos + n..] else []
  }

  /** `f.write(x)`: overwrites (or extends the file with) `x` at the position and
      advances the position past it; a write of nothing changes nothing. */
  function Write(b: Buffer, x: seq<byte>): (b': Buffer)
    ensures |x| > 0 ==> b'.pos == b.pos + |x|
    ensures |x| > 0 ==> |b'.data| == (if b.pos + |x| < |b.data| then |b.data| else b.pos + |x|)
    ensures |x| > 0 ==> b'.data[b.pos..b'.pos] == x
    ensures |x| == 0 ==> b' == b
  {
    if |x| == 0 then b
    else
      var d := Head(b) + x + Tail(b, |x|);
      assert d[b.pos..b.pos + |x|] == x;
      Buffer(d, b.pos + |x|)
  }

  /** A write leaves every byte outside the written range as it was. */
  lemma WriteKeepsOtherBytes(b: Buffer, x: seq<byte>)
    ensures |Write(b, x).data| >= |b.data|
    ensures forall i :: 0 <= i < b.pos && i < |b.data| ==> Write(b, x).data[i] == b.data[i]
    ensures forall i :: b.pos + |x| <= i < |b.data| ==> Write(b, x).data[i] == b.data[i]
  {
    if |x| > 0 {
      var t := Tail(b, |x|);
      assert Write(b, x).data == Head(b) + x + t;
      forall i | b.pos + |x| <= i < |b.data|
        ensures Write(b, x).data[i] == b.data[i]
      {
        assert t[i - b.pos - |x|] == b.data[i];
      }
    }
  }

  /** `f.seek(0)`: the whole file is there to be read again. */
  function Rewind(b: Buffer): (b': Buffer)
    ensures b'.data == b.data && b'.pos == 0
    ensures Remaining(b') == b.data
  {
    Buffer(b.data, 0)
  }

  /** The bytes between the position and the end of the file. */
  function Remaining(b: Buffer): seq<byte>
  {
    if b.pos < |b.data| then b.data[b.pos..] else []
  }

  /** `f.read(size)`: up to `size` bytes from the position, which advances past them. */
  function Read(b: Buffer, size: nat): (r: (seq<byte>, Buffer))
    ensures r.0 == Remaining(b)[..if size < |Remaining(b)| then size else |Remaining(b)|]
    ensures r.1.data == b.data
    ensures r.1.pos == b.pos + |r.0|
  {
    if b.pos >= |b.data| then ([], b)
    else
      var stop := if b.pos + size < |b.data| then b.pos + size else |b.data|;
      (b.data[b.pos..stop], Buffer(b.data, stop))
  }

  /** The chunks, written one after the other. */
  function WriteAll(b: Buffer, chunks: seq<seq<byte>>): Buffer
  {
    if |chunks| == 0 then b else Write(WriteAll(b, chunks[..|chunks| - 1]), chunks[|chunks| - 1])
  }

  /** The reading loop of a `copy ... from stdin`: reads `size` bytes at a time
      until a read comes back empty. Together the chunks are exactly the rest of
      the file, and none is empty or longer than `size`. */
  function ReadChunks(b: Buffer, size: nat): (chunks: seq<seq<byte>>)
    requires size > 0
    ensures Flatten(chunks) == Remaining(b)
    decreases |b.data| - b.pos
  {
    var r := Read(b, size);
    if |r.0| == 0 then []
    else
      ReadAdvances(b, size);
      var rest := ReadChunks(r.1, size);
      FlattenCons(r.0, rest);
      [r.0] + rest
  }

  /** No block the reading loop hands over is empty or longer than the block size. */
  lemma {:induction false} ReadChunksBounded(b: Buffer, size: nat)
    requires size > 0
    ensures forall i :: 0 <= i < |ReadChunks(b, size)| ==> 0 < |ReadChunks(b, size)[i]| <= size
    decreases |b.data| - b.pos
  {
    var r := Read(b, size);
    if |r.0| > 0 {
      ReadAdvances(b, size);
      ReadChunksBounded(r.1, size);
      var rest := ReadChunks(r.1, size);
      assert ReadChunks(b, size) == [r.0] + rest;
    }
  }

  /** A non-empty read splits off the front of what remains. */
  lemma ReadAdvances(b: Buffer, size: nat)
    requires |Read(b, size).0| > 0
    ensures var r := Read(b, size);
            && |r.0| <= size
            && r.1.data == b.data && r.1.pos == b.pos + |r.0|
            && Remaining(b) == r.0 + Remaining(r.1)
  {
    var r := Read(b, size);
    var stop := r.1.pos;
    assert r.0 == b.data[b.pos..stop];
    if stop < |b.data| {
      assert b.data[b.pos..] == b.data[b.pos..stop] + b.data[stop..];
    } else {
      assert b.data[b.pos..] == b.data[b.pos..stop];
    }
  }

  lemma FlattenCons<T>(x: seq<T>, xss: seq<seq<T>>)
    ensures Flatten([x] + xss) == x + Flatten(xss)
  {
    FlattenAppend([x], xss);
    assert [x][..0] == [];
  }

  lemma HeadAfterWrite(b: Buffer, x: seq<byte>)
    requires |x| > 0
    ensures Head(Write(b, x)) == Head(b) + x
  {
    var b1 := Write(b, x);
    assert b1.data == Head(b) + x + Tail(b, |x|);
    assert b1.data[..b1.pos] == Head(b) + x;
  }

  lemma TailAfterWrite(b: Buffer, x: seq<byte>, n: nat)
    requires |x| > 0
    ensures Tail(Write(b, x), n) == Tail(b, |x| + n)
  {
    var b1 := Write(b, x);
    var t := Tail(b, |x|);
    assert b1.data == Head(b) + x + t;
    if b1.pos + n < |b1.data| {
      assert |b1.data| == |b.data|;
      assert b1.data[b1.pos + n..] == t[n..];
    }
  }

  /** Two writes in a row land as one write of their concatenation. */
  lemma WriteConcat(b: Buffer, x: seq<byte>, y: seq<byte>)
    ensures Write(Write(b, x), y) == Write(b, x + y)
  {
    if |x| == 0 {
      assert x + y == y;
    } else if |y| == 0 {
      assert x + y == x;
    } else {
      WriteConcatNonEmpty(b, x, y);
    }
  }

  lemma WriteConcatNonEmpty(b: Buffer, x: seq<byte>, y: seq<byte>)
    requires |x| > 0 && |y| > 0
    ensures Write(Write(b, x), y) == Write(b, x + y)
  {
    var b1 := Write(b, x);
    var h, t := Head(b), Tail(b, |x| + |y|);
    HeadAfterWrite(b, x);
    TailAfterWrite(b, x, |y|);
    assert Write(b1, y) == Buffer((h + x) + y + t, b.pos + |x| + |y|);
    assert Write(b, x + y) == Buffer(h + (x + y) + t, b.pos + |x| + |y|);
    ConcatAssoc(h, x, y, t);
  }

  lemma ConcatAssoc<T>(a: seq<T>, b: seq<T>, c: seq<T>, d: seq<T>)
    ensures (a + b) + c + d == a + (b + c) + d
  {
  }

  /** Writing chunk by chunk is writing their concatenation. */
  lemma {:induction false} WriteAllIsWrite(b: Buffer, chunks: seq<seq<byte>>)
    ensures WriteAll(b, chunks) == Write(b, Flatten(chunks))
    decreases |chunks|
  {
    if |chunks| > 0 {
      var init := chunks[..|chunks| - 1];
      WriteAllIsWrite(b, init);
      WriteConcat(b, Flatten(init), chunks[|chunks| - 1]);
    }
  }

  /** The buffer life cycle of `bulk_read_write`: whatever was written into a fresh
      file is, after rewinding, read back exactly and in order. */
  lemma FreshRoundTrip(chunks: seq<seq<byte>>, size: nat)
    requires size > 0
    ensures Flatten(ReadChunks(Rewind(WriteAll(Fresh, chunks)), size)) == Flatten(chunks)
  {
    WriteAllIsWrite(Fresh, chunks);
    var f := Flatten(chunks);
    if |f| > 0 {
      assert Write(Fresh, f).data == f;
    }
  }

  /** Why the file must be fresh: a file that still holds the bytes of an earlier
      transfer, positioned after them, hands them to the import leg ahead of the
      new ones. */
  lemma ReusedBufferLeaks(prev: seq<byte>, chunks: seq<seq<byte>>, size: nat)
    requires size > 0
    ensures Flatten(ReadChunks(Rewind(WriteAll(Buffer(prev, |prev|), chunks)), size)) == prev + Flatten(chunks)
  {
    var stale := Buffer(prev, |prev|);
    WriteAllIsWrite(stale, chunks);
    if |Flatten(chunks)| == 0 {
      assert prev + Flatten(chunks) == prev;
    } else {
      assert Head(stale) == prev;
      assert Write(stale, Flatten(chunks)).data == prev + Flatten(chunks);
    }
  }

  // ---------------------------------------------------------------------------
  // Command text.

  /** A query parameter; the benchmark passes one list of category ids. */
  datatype Param = IntList(values: seq<int>)

  const ExportPrefix := "\n        copy (\n            "
  const ExportSuffix := "\n        ) to stdout with binary\n        "

  /** The query inside an export command, if the text has the export shape. */
  function Unwrap(cmd: string): Option<string>
  {
    if |cmd| >= |ExportPrefix| + |ExportSuffix|
       && cmd[..|ExportPrefix|] == ExportPrefix
       && cmd[|cmd| - |ExportSuffix|..] == ExportSuffix
    then Some(cmd[|ExportPrefix|..|cmd| - |ExportSuffix|])
    else None
  }

  /** `_bulk_select`'s command: the parameter-substituted query wrapped in
      `copy ( ... ) to stdout with binary`. */
  function ExportCommand(query: string): string
  {
    ExportPrefix + query + ExportSuffix
  }

  /** The query can be recovered from its export command. */
  lemma ExportCommandWraps(query: string)
    ensures Unwrap(ExportCommand(query)) == Some(query)
  {
    var cmd := ExportCommand(query);
    assert cmd[..|ExportPrefix|] == ExportPrefix;
    assert cmd[|cmd| - |ExportSuffix|..] == ExportSuffix;
    assert cmd[|ExportPrefix|..|cmd| - |ExportSuffix|] == query;
  }

  /** `sql.SQL(sep).join(xs)`. */
  function Join(sep: string, xs: seq<string>): string
  {
    if |xs| == 0 then ""
    else if |xs| == 1 then xs[0]
    else Join(sep, xs[..|xs| - 1]) + sep + xs[|xs| - 1]
  }

  /** Splitting a list anywhere splits its join at a separator: the elements
      appear in the given order, consecutive ones separated by exactly `sep`. */
  lemma {:induction false} JoinSplit(sep: string, xs: seq<string>, k: nat)
    requires 0 < k < |xs|
    ensures Join(sep, xs) == Join(sep, xs[..k]) + sep + Join(sep, xs[k..])
    decreases |xs|
  {
    var init := xs[..|xs| - 1];
    var last := xs[|xs| - 1];
    if k == |xs| - 1 {
      assert xs[..k] == init;
      assert xs[k..] == [last];
    } else {
      JoinSplit(sep, init, k);
      assert init[..k] == xs[..k];
      var rest := xs[k..];
      assert rest[..|rest| - 1] == init[k..];
      assert Join(sep, rest) == Join(sep, init[k..]) + sep + last;
    }
  }

  function QuoteAll(quote: string -> string, names: seq<string>): (q: seq<string>)
    ensures |q| == |names| && forall i :: 0 <= i < |names| ==> q[i] == quote(names[i])
  {
    if |names| == 0 then [] else QuoteAll(quote, names[..|names| - 1]) + [quote(names[|names| - 1])]
  }

  const ImportOptions := "from stdin with binary"

  /** The column list of an import command: quoted identifiers joined by ", ". */
  function ColumnList(quote: string -> string, columns: seq<string>): string
  {
    Join(", ", QuoteAll(quote, columns))
  }

  /** `_bulk_insert`'s command: `copy <table> (<columns>) from stdin with binary`
      with a column list, `copy <table> from stdin with binary` without one. */
  function ImportCommand(quote: string -> string, table: string, columns: Option<seq<string>>): string
  {
    match columns
    case None => "copy " + quote(table) + " " + ImportOptions
    case Some(cs) => "copy " + quote(table) + " (" + ColumnList(quote, cs) + ") " + ImportOptions
  }

  /** The shape of an import command: it starts with `copy` and the quoted table
      name in both forms and ends with the options; it holds a parenthesised column
      list exactly when one is given, and is the short form otherwise. */
  lemma ImportCommandShape(quote: string -> string, table: string, columns: Option<seq<string>>)
    ensures var cmd := ImportCommand(quote, table, columns);
            && |cmd| >= 5 + |quote(table)| + 1 + |ImportOptions|
            && cmd[..5 + |quote(table)|] == "copy " + quote(table)
            && cmd[|cmd| - |ImportOptions|..] == ImportOptions
            && (columns.None? <==> cmd == "copy " + quote(table) + " " + ImportOptions)
    ensures columns.Some? ==>
              var cmd := ImportCommand(quote, table, columns);
              var start := 5 + |quote(table)| + 2;
              var list := ColumnList(quote, columns.value);
              && |cmd| == start + |list| + 2 + |ImportOptions|
              && cmd[start - 2..start] == " ("
              && cmd[start..start + |list|] == list
              && cmd[start + |list|..start + |list| + 2] == ") "
  {
    var head := "copy " + quote(table);
    var cmd := ImportCommand(quote, table, columns);
    match columns
    case None =>
      assert cmd[..|head|] == head;
      assert cmd[|cmd| - |ImportOptions|..] == ImportOptions;
    case Some(cs) =>
      var list := ColumnList(quote, cs);
      var start := |head| + 2;
      assert cmd == head + " (" + list + ") " + ImportOptions;
      assert cmd[..|head|] == head;
      assert cmd[|cmd| - |ImportOptions|..] == ImportOptions;
      assert cmd[start - 2..start] == " (";
      assert cmd[start..start + |list|] == list;
      assert cmd[start + |list|..start + |list| + 2] == ") ";
      assert |cmd| != |head + " " + ImportOptions|;
  }

  // ---------------------------------------------------------------------------
  // The round trip.

  /** psycopg2's default block size when `copy_expert` reads from a file. */
  const CopyBlockSize := 8192

  datatype SelectSpec = SelectSpec(query: string, params: Option<seq<Param>>)
  datatype InsertSpec = InsertSpec(table: string, columns: Option<seq<string>>)

  /** The cursor as far as a bulk copy sees it: parameter substitution, identifier
      quoting, and the server's two halves of COPY over a server state `S`. The
      export produces the bytes of the result set in the chunks the server sends;
      the import consumes a byte stream and yields the new state or an error. */
  datatype Driver<!S> = Driver(
    mogrify: (string, Option<seq<Param>>) -> string,
    quote: string -> string,
    copyOut: (S, SelectSpec) -> Result<seq<seq<byte>>, string>,
    copyIn: (S, InsertSpec, seq<byte>) -> Result<S, string>)

  /** The server state a transfer leaves (or the error that ended it) and the
      driver calls it made. */
  datatype Transfer<S> = Transfer(result: Result<S, string>, trace: seq<Event>)

  /** The writing side of a `copy ... to stdout` into a file: each chunk the
      server sends is written at the position, in the order sent. */
  method WriteChunks(b: Buffer, chunks: seq<seq<byte>>) returns (b': Buffer)
    ensures b' == Write(b, Flatten(chunks))
  {
    b' := b;
    var i := 0;
    while i < |chunks|
      invariant 0 <= i <= |chunks|
      invariant b' == WriteAll(b, chunks[..i])
    {
      assert chunks[..i + 1][..i] == chunks[..i];
      b' := Write(b', chunks[i]);
      i := i + 1;
    }
    assert chunks[..i] == chunks;
    WriteAllIsWrite(b, chunks);
  }

  /** The reading side of a `copy ... from stdin` out of a file: blocks of
      `size` bytes until a read comes back empty, leaving the file at its end. */
  method ReadBlocks(b: Buffer, size: nat) returns (blocks: seq<seq<byte>>, b': Buffer)
    requires size > 0
    ensures blocks == ReadChunks(b, size)
    ensures b'.data == b.data && Remaining(b') == []
  {
    b' := b;
    blocks := [];
    while true
      invariant b'.data == b.data
      invariant blocks + ReadChunks(b', size) == ReadChunks(b, size)
      decreases |b'.data| - b'.pos
    {
      var r := Read(b', size);
      if |r.0| == 0 {
        break;
      }
      ReadAdvances(b', size);
      assert ReadChunks(b', size) == [r.0] + ReadChunks(r.1, size);
      assert blocks + [r.0] + ReadChunks(r.1, size) == blocks + ([r.0] + ReadChunks(r.1, size));
      blocks := blocks + [r.0];
      b' := r.1;
    }
    assert ReadChunks(b', size) == [];
  }

  /** `bulk_read_write`: export into a fresh file, rewind it, import all of it.
      The export runs once and first; the import runs once, only after a
      successful export, and receives exactly the exported bytes in order. A
      failed export ends the transfer with its error and no import. */
  method BulkReadWrite<S>(drv: Driver<S>, s: S, select: SelectSpec, insert: InsertSpec) returns (t: Transfer<S>)
    ensures |t.trace| >= 1 && t.trace[0] == CopyOut(ExportCommand(drv.mogrify(select.query, select.params)))
    ensures drv.copyOut(s, select).Failure? ==>
              t.trace == [t.trace[0]] && t.result == Failure(drv.copyOut(s, select).error)
    ensures drv.copyOut(s, select).Success? ==>
              var payload := Flatten(drv.copyOut(s, select).value);
              && |t.trace| == 2
              && t.trace[1] == CopyIn(ImportCommand(drv.quote, insert.table, insert.columns), payload)
              && t.result == drv.copyIn(s, insert, payload)
  {
    var exportCall := CopyOut(ExportCommand(drv.mogrify(select.query, select.params)));
    var exported := drv.copyOut(s, select);
    if exported.Failure? {
      return Transfer(Failure(exported.error), [exportCall]);
    }
    var written := WriteChunks(Fresh, exported.value);
    var blocks, _ := ReadBlocks(Rewind(written), CopyBlockSize);
    WriteAllIsWrite(Fresh, exported.value);
    FreshRoundTrip(exported.value, CopyBlockSize);
    var payload := Flatten(blocks);
    t := Transfer(drv.copyIn(s, insert, payload),
                  [exportCall, CopyIn(ImportCommand(drv.quote, insert.table, insert.columns), payload)]);
  }
}
