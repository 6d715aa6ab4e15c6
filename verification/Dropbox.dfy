/**
 Streaming a file to Dropbox: one plain upload if the first read comes back short, otherwise an
 upload session that is fed chunk by chunk and finished with the first short chunk.
 */
module Dropbox {
  import opened Basics

  function EnsureAbs(path: string): string { if path != "" && path[0] == '/' then path else "/" + path }

  predicate IsAbs(path: string) { path != "" && path[0] == '/' }

  /** Every path is written at an absolute one, which is the path itself or the path behind a slash; so two
      paths name one object exactly if they differ at most in a leading slash that makes one absolute. */
  lemma SameObjectExactly(p: string, q: string)
    ensures IsAbs(EnsureAbs(p)) && (if IsAbs(p) then EnsureAbs(p) == p else EnsureAbs(p)[1..] == p)
    ensures EnsureAbs(p) == EnsureAbs(q)
            <==> p == q || (!IsAbs(q) && p == "/" + q) || (!IsAbs(p) && q == "/" + p)
  {
    assert ("/" + p)[1..] == p && ("/" + q)[1..] == q;
  }

  /** A stream over `data`; read number k gives at most caps(k) bytes. */
  class Reader {
    const data: Bytes
    const caps: nat -> nat
    var pos: nat
    var count: nat  // reads made

    ghost predicate Valid()
      reads this
    {
      pos <= |data|
    }

    constructor (data: Bytes, caps: nat -> nat)
      ensures this.data == data && this.caps == caps && pos == 0 && count == 0 && Valid()
    {
      this.data, this.caps, pos, count := data, caps, 0, 0;
    }

    method Read(size: nat) returns (chunk: Bytes)
      requires Valid()
      modifies this
      ensures Valid() && count == old(count) + 1
      ensures pos == old(pos) + ReadLength(data, caps, size, old(count), old(pos))
      ensures chunk == data[old(pos)..pos]
    {
      var n := ReadLength(data, caps, size, count, pos);
      chunk := data[pos..pos + n];
      pos, count := pos + n, count + 1;
    }

    /** stream.read() without a size: everything that is left. */
    method ReadAll() returns (rest: Bytes)
      requires Valid()
      modifies this
      ensures Valid() && pos == |data| && rest == data[old(pos)..]
    {
      rest := data[pos..];
      pos, count := |data|, count + 1;
    }
  }

  function ReadLength(data: Bytes, caps: nat -> nat, size: nat, k: nat, pos: nat): (n: nat)
    requires pos <= |data|
    ensures pos + n <= |data| && n <= size
  {
    var most := if caps(k) < size then caps(k) else size;
    if most <= |data| - pos then most else |data| - pos
  }

  /** The position after reading from `pos`, starting with read k, until a read comes back short. */
  function ReadUntilShort(data: Bytes, caps: nat -> nat, size: nat, k: nat, pos: nat): (end: nat)
    requires size > 0 && pos <= |data|
    ensures pos <= end <= |data|
    decreases |data| - pos
  {
    var n := ReadLength(data, caps, size, k, pos);
    if n < size then pos + n else ReadUntilShort(data, caps, size, k + 1, pos + n)
  }

  /** Where it ends: m reads give a whole chunk each, and the next one is short. */
  lemma {:induction false} EndsWithTheFirstShortRead(data: Bytes, caps: nat -> nat, size: nat, k: nat, pos: nat)
    returns (m: nat, short: nat)
    requires size > 0 && pos <= |data|
    ensures forall i: nat | k <= i < k + m :: caps(i) >= size
    ensures short < size && (short == caps(k + m) || pos + m * size + short == |data|) && short <= caps(k + m)
    ensures ReadUntilShort(data, caps, size, k, pos) == pos + m * size + short <= |data|
    decreases |data| - pos
  {
    m, short := 0, ReadLength(data, caps, size, k, pos);
    if short == size {
      m, short := EndsWithTheFirstShortRead(data, caps, size, k + 1, pos + size);
      assert k + 1 + m == k + (m + 1) && pos + size + m * size == pos + (m + 1) * size;
      m := m + 1;
    }
  }

  /** Reads k, k + 1, ... give `chunks` whole chunks and then the last `rest` bytes. */
  ghost predicate Gives(caps: nat -> nat, size: nat, k: nat, chunks: nat, rest: nat) {
    (forall i: nat | k <= i < k + chunks :: caps(i) >= size) && caps(k + chunks) >= rest
  }

  /** Every read from number k on is full until the stream ends. */
  ghost predicate FullReads(data: Bytes, caps: nat -> nat, size: nat, k: nat, pos: nat)
    requires size > 0 && pos <= |data|
  {
    Gives(caps, size, k, (|data| - pos) / size, (|data| - pos) % size)
  }

  lemma OneChunkLess(rest: nat, size: nat)
    requires size > 0
    ensures rest >= size ==> rest / size == (rest - size) / size + 1 && rest % size == (rest - size) % size
    ensures rest < size ==> rest / size == 0 && rest % size == rest
  {
    if rest >= size {
      var q, r := (rest - size) / size, (rest - size) % size;
      assert rest == (q + 1) * size + r by { assert (q + 1) * size == q * size + size; }
      DivExact(rest, q + 1, size, r);
    } else {
      DivExact(rest, 0, size, rest);
    }
  }

  lemma {:induction false} ReadsGive(data: Bytes, caps: nat -> nat, size: nat, k: nat, pos: nat, chunks: nat, rest: nat)
    requires size > 0 && pos <= |data| && chunks == (|data| - pos) / size && rest == (|data| - pos) % size
    ensures ReadUntilShort(data, caps, size, k, pos) == |data| <==> Gives(caps, size, k, chunks, rest)
    decreases |data| - pos
  {
    OneChunkLess(|data| - pos, size);
    if chunks > 0 && caps(k) >= size {
      ReadsGive(data, caps, size, k + 1, pos + size, chunks - 1, rest);
      GivesMore(caps, size, k, chunks, rest);
    }
  }

  lemma GivesMore(caps: nat -> nat, size: nat, k: nat, chunks: nat, rest: nat)
    requires chunks > 0 && caps(k) >= size
    ensures Gives(caps, size, k, chunks, rest) <==> Gives(caps, size, k + 1, chunks - 1, rest)
  {
    assert k + chunks == k + 1 + (chunks - 1);
  }

  /** The reads get to the end of the stream exactly when none before the end is short. */
  lemma ReadsWholeExactly(data: Bytes, caps: nat -> nat, size: nat, k: nat, pos: nat)
    requires size > 0 && pos <= |data|
    ensures ReadUntilShort(data, caps, size, k, pos) == |data| <==> FullReads(data, caps, size, k, pos)
  {
    ReadsGive(data, caps, size, k, pos, (|data| - pos) / size, (|data| - pos) % size);
  }

  /** The objects after the rest of the stream is written at once. */
  function OneShot(objects: map<string, Bytes>, path: string, data: Bytes, pos: nat): map<string, Bytes>
    requires pos <= |data|
  {
    objects[EnsureAbs(path) := data[pos..]]
  }

  /** The objects after what is read up to and including the first short chunk is written. */
  function Streamed(objects: map<string, Bytes>, path: string, data: Bytes, caps: nat -> nat, size: nat, k: nat,
                    pos: nat): map<string, Bytes>
    requires size > 0 && pos <= |data|
  {
    objects[EnsureAbs(path) := data[pos..ReadUntilShort(data, caps, size, k, pos)]]
  }

  /** The chunked write does what the one-shot write does exactly when no read before the end is short. */
  lemma StreamedIsOneShotExactly(objects: map<string, Bytes>, path: string, data: Bytes, caps: nat -> nat, size: nat,
                                 k: nat, pos: nat)
    requires size > 0 && pos <= |data|
    ensures Streamed(objects, path, data, caps, size, k, pos) == OneShot(objects, path, data, pos)
            <==> FullReads(data, caps, size, k, pos)
  {
    var end := ReadUntilShort(data, caps, size, k, pos);
    ReadsWholeExactly(data, caps, size, k, pos);
    assert Streamed(objects, path, data, caps, size, k, pos)[EnsureAbs(path)] == data[pos..end];
    assert OneShot(objects, path, data, pos)[EnsureAbs(path)] == data[pos..];
    if end < |data| { assert |data[pos..end]| != |data[pos..]|; } else { assert data[pos..end] == data[pos..]; }
  }

  /** The session after some full chunks: `end` is where the stream will be cut, everything from
      `start` to `pos` has been sent, in n chunks. */
  ghost predicate Sending(data: Bytes, caps: nat -> nat, size: nat, start: nat, end: nat, k: nat, pos: nat, n: nat) {
    && size > 0 && start <= pos <= end <= |data|
    && ReadUntilShort(data, caps, size, k, pos) == end
    && (pos - start) / size == n && (pos - start) % size == 0
  }

  lemma SendingStarts(data: Bytes, caps: nat -> nat, size: nat, k: nat, start: nat)
    requires size > 0 && start <= |data|
    ensures Sending(data, caps, size, start, ReadUntilShort(data, caps, size, k, start), k, start, 0)
  {
    OneChunkLess(0, size);
  }

  lemma SendingGoesOn(data: Bytes, caps: nat -> nat, size: nat, start: nat, end: nat, k: nat, pos: nat, n: nat)
    requires Sending(data, caps, size, start, end, k, pos, n)
    ensures var length := ReadLength(data, caps, size, k, pos);
            && (length == size ==>
                  Sending(data, caps, size, start, end, k + 1, pos + length, n + 1) && (end - start) / size >= n + 1)
            && (length < size ==> pos + length == end && (end - start) / size == n)
  {
    var length := ReadLength(data, caps, size, k, pos);
    if length == size {
      OneChunkLess(pos - start + size, size);
      DivGrows(pos - start + size, end - start, size);
    } else {
      DivExact(end - start, n, size, length);
    }
  }

  lemma DivGrows(a: nat, b: nat, size: nat)
    requires size > 0 && a <= b
    ensures a / size <= b / size
  {
    var k := a / size - b / size;
    assert k * size == a / size * size - b / size * size;
    AtLeastOnce(k, size);
  }

  lemma AtLeastOnce(k: int, size: nat)
    requires size > 0
    ensures k >= 1 ==> k * size >= size
  {}

  class DropboxBackend {
    var objects: map<string, Bytes>
    var sessions: seq<Bytes>   // what each upload session has received
    var requests: nat
    var failAt: nat            // the request with this number, and every later one, raises ApiError

    constructor (failAt: nat)
      ensures objects == map[] && sessions == [] && requests == 0 && this.failAt == failAt
    {
      objects, sessions, requests, this.failAt := map[], [], 0, failAt;
    }

    method FilesUpload(data: Bytes, path: string) returns (ok: bool)
      modifies this`objects, this`requests
      ensures requests == old(requests) + 1 && ok == (old(requests) < failAt)
      ensures objects == if ok then old(objects)[path := data] else old(objects)
    {
      ok := requests < failAt;
      requests := requests + 1;
      if ok {
        objects := objects[path := data];
      }
    }

    method SessionStart(chunk: Bytes) returns (ok: bool, id: nat)
      modifies this`sessions, this`requests
      ensures requests == old(requests) + 1 && ok == (old(requests) < failAt)
      ensures ok ==> id == |old(sessions)| && sessions == old(sessions) + [chunk]
    {
      ok, id := requests < failAt, |sessions|;
      requests := requests + 1;
      if ok {
        sessions := sessions + [chunk];
      }
    }

    /** The service accepts data only at the offset it has reached itself. */
    method SessionAppend(chunk: Bytes, id: nat, offset: nat) returns (ok: bool)
      modifies this`sessions, this`requests
      ensures requests == old(requests) + 1
      ensures ok <==> old(requests) < failAt && id < |old(sessions)| && offset == |old(sessions)[id]|
      ensures ok ==> sessions == old(sessions)[id := old(sessions)[id] + chunk]
    {
      ok := requests < failAt && id < |sessions| && offset == |sessions[id]|;
      requests := requests + 1;
      if ok {
        sessions := sessions[id := sessions[id] + chunk];
      }
    }

    method SessionFinish(chunk: Bytes, id: nat, offset: nat, path: string) returns (ok: bool)
      modifies this`objects, this`requests
      ensures requests == old(requests) + 1
      ensures ok <==> old(requests) < failAt && id < |sessions| && offset == |sessions[id]|
      ensures ok ==> objects == old(objects)[path := sessions[id] + chunk]
      ensures !ok ==> objects == old(objects)
    {
      ok := requests < failAt && id < |sessions| && offset == |sessions[id]|;
      requests := requests + 1;
      if ok {
        objects := objects[path := sessions[id] + chunk];
      }
    }

    /** The base class's write_stream: everything at once. */
    method WriteStreamOneShot(path: string, stream: Reader) returns (ok: bool)
      requires stream.Valid()
      modifies this, stream
      ensures ok <==> old(requests) < failAt
      ensures ok ==> objects == old(objects)[if IsAbs(path) then path else "/" + path := stream.data[old(stream.pos)..]]
      ensures objects == if ok then OneShot(old(objects), path, stream.data, old(stream.pos)) else old(objects)
      ensures requests == old(requests) + 1
    {
      var data := stream.ReadAll();
      ok := FilesUpload(data, EnsureAbs(path));
    }

    /** The loop of write_stream: n chunks have been sent, the stream is at a chunk boundary. */
    method FeedSession(absPath: string, stream: Reader, chunkSize: nat, sessionId: nat, ghost start: nat,
                       ghost end: nat, ghost sent: nat)
      returns (ok: bool)
      requires stream.Valid()
      requires Sending(stream.data, stream.caps, chunkSize, start, end, stream.count, stream.pos, sent)
      requires sessionId < |sessions| && sessions[sessionId] == stream.data[start..stream.pos] && requests <= failAt
      modifies this, stream
      ensures ok <==> old(requests) + (end - start) / chunkSize - sent < failAt
      ensures ok ==> objects == old(objects)[absPath := stream.data[start..end]]
      ensures ok ==> requests == old(requests) + (end - start) / chunkSize - sent + 1
      ensures !ok ==> objects == old(objects)
    {
      var offset := |sessions[sessionId]|;
      ghost var data, n := stream.data, sent;
      while true
        invariant stream.Valid() && offset == stream.pos - start
        invariant Sending(data, stream.caps, chunkSize, start, end, stream.count, stream.pos, n)
        invariant sessionId < |sessions| && sessions[sessionId] == data[start..stream.pos]
        invariant requests == old(requests) + n - sent && requests <= failAt
        invariant objects == old(objects)
        decreases end - stream.pos
      {
        ghost var pos := stream.pos;
        SendingGoesOn(data, stream.caps, chunkSize, start, end, stream.count, pos, n);
        var chunk := stream.Read(chunkSize);
        assert data[start..pos] + chunk == data[start..stream.pos];
        if |chunk| < chunkSize {
          ok := SessionFinish(chunk, sessionId, offset, absPath);
          return;
        }
        var appended := SessionAppend(chunk, sessionId, offset);
        if !appended { return false; }
        offset := offset + |chunk|;
        n := n + 1;
      }
    }

    /** Dropbox's write_stream: commits what is read up to and including the first short chunk, with one
        request per chunk, none of them refused for its offset.  A request that raises leaves the
        objects alone. */
    method WriteStream(path: string, stream: Reader, chunkSize: nat) returns (ok: bool)
      requires stream.Valid() && chunkSize > 0
      modifies this, stream
      ensures var end := ReadUntilShort(stream.data, stream.caps, chunkSize, old(stream.count), old(stream.pos));
              && (ok <==> old(requests) + (end - old(stream.pos)) / chunkSize < failAt)
              && (ok ==> requests == old(requests) + (end - old(stream.pos)) / chunkSize + 1)
              && (ok ==> objects == old(objects)[if IsAbs(path) then path else "/" + path :=
                                                 stream.data[old(stream.pos)..end]])
      ensures var k, pos := old(stream.count), old(stream.pos);
              objects == if ok then Streamed(old(objects), path, stream.data, stream.caps, chunkSize, k, pos)
                         else old(objects)
    {
      var absPath := EnsureAbs(path);
      ghost var data, k, start := stream.data, stream.count, stream.pos;
      ghost var end := ReadUntilShort(data, stream.caps, chunkSize, k, start);
      SendingStarts(data, stream.caps, chunkSize, k, start);
      SendingGoesOn(data, stream.caps, chunkSize, start, end, k, start, 0);
      var firstChunk := stream.Read(chunkSize);
      if |firstChunk| < chunkSize {
        ok := FilesUpload(firstChunk, absPath);
        return;
      }
      var started, sessionId := SessionStart(firstChunk);
      if !started { return false; }
      ok := FeedSession(absPath, stream, chunkSize, sessionId, start, end, 1);
    }
  }
}
