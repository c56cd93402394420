/**
 Moving a file's bytes to and from the object store: the two data callbacks of
 `s3_ops.c`, a request driven in chunks of the library's choosing, and the two
 retry loops.
 */
module S3Transfer {
  import opened Bytes
  import opened FileBytes

  type Key = string

  /** How a request ended, as far as the program distinguishes. */
  datatype Status = StatusOK | StatusRetryable | StatusFatal

  function Least(a: nat, b: nat): nat {
    if a < b then a else b
  }

  /** A stdio stream over an open file. How many bytes a call moves at most, for whatever reason,
      is a choice the program does not make. */
  class FileStream {
    var data: Bytes
    var pos: nat

    constructor (data: Bytes)
      ensures this.data == data && pos == 0
    {
      this.data := data;
      pos := 0;
    }

    /** fread(buffer, 1, n, file): comes up short at the end of the file, or after `most` bytes. */
    method Fread(buffer: array<byte>, n: nat, most: nat) returns (got: nat)
      requires n <= buffer.Length && pos <= |data|
      modifies this`pos, buffer
      ensures got == Least(Least(n, |data| - old(pos)), most)
      ensures pos == old(pos) + got <= |data|
      ensures buffer[..got] == data[old(pos)..pos]
      ensures buffer[got..] == old(buffer[got..])
    {
      got := Least(Least(n, |data| - pos), most);
      forall k | 0 <= k < got {
        buffer[k] := data[pos + k];
      }
      pos := pos + got;
    }

    /** fwrite(buffer, 1, |chunk|, file): stops after `most` bytes. */
    method Fwrite(chunk: Bytes, most: nat) returns (wrote: nat)
      requires pos <= |data|
      modifies this
      ensures wrote == Least(|chunk|, most)
      ensures data == WriteAt(old(data), old(pos), chunk[..wrote])
      ensures pos == old(pos) + wrote <= |data|
    {
      wrote := Least(|chunk|, most);
      data := WriteAt(data, pos, chunk[..wrote]);
      pos := pos + wrote;
    }
  }

  /** struct s3_put_object_callback_data. */
  class PutData {
    const file: FileStream
    var contentLength: nat

    constructor (file: FileStream, contentLength: nat)
      ensures this.file == file && this.contentLength == contentLength
    {
      this.file := file;
      this.contentLength := contentLength;
    }
  }

  /** The next chunk to send: as many bytes as the buffer takes, as were announced, as the stream
      holds and as stdio delivers, and exactly those that follow in the stream; bytes sent and bytes
      still announced always add up. */
  method PutObjectDataCallback(bufferSize: nat, buffer: array<byte>, data: PutData, most: nat) returns (ret: nat)
    requires bufferSize <= buffer.Length && data.file.pos <= |data.file.data|
    modifies buffer, data`contentLength, data.file`pos
    ensures ret <= bufferSize && ret + data.contentLength == old(data.contentLength)
    ensures ret <= most && data.file.pos == old(data.file.pos) + ret <= |data.file.data|
    ensures ret in {bufferSize, most, old(data.contentLength), |data.file.data| - old(data.file.pos)}
    ensures buffer[..ret] == data.file.data[old(data.file.pos)..data.file.pos]
    ensures buffer[ret..] == old(buffer[ret..])
  {
    ret := 0;
    if data.contentLength != 0 {
      var toRead := if data.contentLength > bufferSize then bufferSize else data.contentLength;
      ret := data.file.Fread(buffer, toRead, most);
    }
    data.contentLength := data.contentLength - ret;
  }

  /** A chunk received: written to the stream, or the request is aborted after a prefix of it. */
  method GetObjectDataCallback(chunk: Bytes, file: FileStream, most: nat) returns (status: Status, wrote: nat)
    requires file.pos <= |file.data|
    modifies file
    ensures wrote == Least(|chunk|, most)
    ensures status == if wrote == |chunk| then StatusOK else StatusFatal
    ensures file.data == WriteAt(old(file.data), old(file.pos), chunk[..wrote])
    ensures file.pos == old(file.pos) + wrote <= |file.data|
  {
    wrote := file.Fwrite(chunk, most);
    status := if wrote < |chunk| then StatusFatal else StatusOK;
  }

  // ---- One request -----------------------------------------------------------------

  /** One call of a data callback: the size of the library's buffer or chunk, and the number of
      bytes stdio moves at most. */
  datatype Ask = Ask(size: nat, most: nat)

  /** Every buffer has room and every call of stdio moves something. */
  predicate Progress(asks: seq<Ask>) {
    forall i :: 0 <= i < |asks| ==> asks[i].size > 0 && asks[i].most > 0
  }

  /** How the store and the network treat one request: how often and for how much the library calls
      back before the request dies, the status, and whether a complete body is kept although the
      request did not succeed. */
  datatype PutReply = PutReply(asks: seq<Ask>, status: Status, keep: bool)

  datatype GetReply = GetReply(asks: seq<Ask>, status: Status)

  /** Bytes that the callbacks of a request take from a stream that holds `left` more. */
  function Taken(left: nat, asks: seq<Ask>): (n: nat)
    ensures n <= left
  {
    if asks == [] then 0
    else
      var step := Least(Least(asks[0].size, left), asks[0].most);
      if step == 0 then 0 else step + Taken(left - step, asks[1..])
  }

  /** Bytes of the `left` still to come that the callbacks of a request write. */
  function Delivered(left: nat, asks: seq<Ask>): (n: nat)
    ensures n <= left
  {
    if asks == [] || left == 0 then 0
    else
      var chunk := Least(asks[0].size, left);
      var wrote := Least(chunk, asks[0].most);
      if wrote < chunk || chunk == 0 then wrote else wrote + Delivered(left - wrote, asks[1..])
  }

  /** The stream has received the first `Sum(written)` bytes of the object, in chunks of these sizes. */
  predicate Received(data: Bytes, pos: nat, data0: Bytes, pos0: nat, whole: Bytes, written: seq<nat>) {
    && (forall i :: 0 <= i < |written| ==> written[i] > 0)
    && Sum(written) <= |whole|
    && pos0 <= |data0| && pos == pos0 + Sum(written) <= |data|
    && data == WriteAt(data0, pos0, whole[..Sum(written)])
  }

  /** A prefix of the next bytes follows the first `off`. */
  lemma ReceivedMore(data0: Bytes, pos0: nat, whole: Bytes, off: nat, chunk: Bytes, wrote: nat)
    requires pos0 <= |data0| && off + |chunk| <= |whole| && chunk == whole[off..off + |chunk|] && wrote <= |chunk|
    ensures WriteAt(WriteAt(data0, pos0, whole[..off]), pos0 + off, chunk[..wrote])
         == WriteAt(data0, pos0, whole[..off + wrote])
  {
    WriteAtTwice(data0, pos0, whole[..off], chunk[..wrote]);
    assert whole[..off] + chunk[..wrote] == whole[..off + wrote];
  }

  function Appended(written: seq<nat>, wrote: nat): seq<nat> {
    if wrote > 0 then written + [wrote] else written
  }

  lemma AppendedSum(written: seq<nat>, wrote: nat)
    requires forall i :: 0 <= i < |written| ==> written[i] > 0
    ensures Sum(Appended(written, wrote)) == Sum(written) + wrote
    ensures forall i :: 0 <= i < |Appended(written, wrote)| ==> Appended(written, wrote)[i] > 0
  {
    SumSnoc(written, wrote);
  }

  lemma ReceivedChunk(data: Bytes, pos: nat, data0: Bytes, pos0: nat, whole: Bytes, written: seq<nat>,
                      chunk: Bytes, wrote: nat, data': Bytes)
    requires Received(data, pos, data0, pos0, whole, written) && wrote <= |chunk|
    requires Sum(written) + |chunk| <= |whole| && chunk == whole[Sum(written)..Sum(written) + |chunk|]
    requires data' == WriteAt(data, pos, chunk[..wrote]) && pos + wrote <= |data'|
    ensures Received(data', pos + wrote, data0, pos0, whole, Appended(written, wrote))
    ensures Sum(Appended(written, wrote)) == Sum(written) + wrote
  {
    AppendedSum(written, wrote);
    ReceivedMore(data0, pos0, whole, Sum(written), chunk, wrote);
  }

  /** The next `n` bytes of the object are handed to the stream. */
  method FetchChunk(whole: Bytes, written: seq<nat>, n: nat, most: nat, file: FileStream,
                    ghost data0: Bytes, ghost pos0: nat)
    returns (status: Status, written': seq<nat>)
    requires Received(file.data, file.pos, data0, pos0, whole, written) && 0 < n && Sum(written) + n <= |whole|
    modifies file
    ensures Received(file.data, file.pos, data0, pos0, whole, written')
    ensures Sum(written') == Sum(written) + Least(n, most)
    ensures status == if Least(n, most) == n then StatusOK else StatusFatal
  {
    ghost var data, pos := file.data, file.pos;
    var chunk := whole[Sum(written)..Sum(written) + n];
    var wrote;
    status, wrote := GetObjectDataCallback(chunk, file, most);
    ReceivedChunk(data, pos, data0, pos0, whole, written, chunk, wrote, file.data);
    written' := Appended(written, wrote);
  }

  /** The object store, and the network in front of it. */
  class ObjectStore {
    var objects: map<Key, Bytes>

    constructor (objects: map<Key, Bytes>)
      ensures this.objects == objects
    {
      this.objects := objects;
    }

    /** Chunks are asked for until one is empty (`ended`) or the request dies. */
    method AskChunks(data: PutData, asks: seq<Ask>) returns (chunks: seq<Bytes>, ended: bool)
      requires data.file.pos + data.contentLength == |data.file.data|
      modifies data`contentLength, data.file`pos
      ensures data.file.pos + data.contentLength == |data.file.data|
      ensures data.file.pos == old(data.file.pos) + Taken(old(data.contentLength), asks)
      ensures Concat(chunks) == data.file.data[old(data.file.pos)..data.file.pos]
      ensures ended && Progress(asks) ==> data.contentLength == 0
    {
      chunks, ended := [], false;
      var i := 0;
      while i < |asks| && !ended
        invariant i <= |asks| && data.file.pos + data.contentLength == |data.file.data|
        invariant old(data.file.pos) <= data.file.pos
        invariant Concat(chunks) == data.file.data[old(data.file.pos)..data.file.pos]
        invariant Taken(old(data.contentLength), asks)
               == data.file.pos - old(data.file.pos) + if ended then 0 else Taken(data.contentLength, asks[i..])
        invariant ended && Progress(asks) ==> data.contentLength == 0
        decreases if ended then 0 else 1, |asks| - i
      {
        var buffer := new byte[asks[i].size];
        var ret := PutObjectDataCallback(asks[i].size, buffer, data, asks[i].most);
        assert asks[i..][0] == asks[i] && asks[i..][1..] == asks[i + 1..];
        i := i + 1;
        if ret == 0 {
          ended := true;
        } else {
          ConcatSnoc(chunks, buffer[..ret]);
          chunks := chunks + [buffer[..ret]];
        }
      }
    }

    /** S3_put_object: asks for chunks, and ends. Only a body of the announced length is kept (an
        incomplete message is not, section 3.4 of RFC 7230); it may be kept although the reply is
        lost. */
    method PutObject(key: Key, contentLength: nat, data: PutData, reply: PutReply)
      returns (status: Status, stored: bool, chunks: seq<Bytes>, ended: bool)
      requires contentLength == data.contentLength && data.file.pos + contentLength == |data.file.data|
      modifies this, data`contentLength, data.file`pos
      ensures data.file.pos + data.contentLength == |data.file.data|
      ensures data.file.pos == old(data.file.pos) + Taken(contentLength, reply.asks)
      ensures Concat(chunks) == data.file.data[old(data.file.pos)..data.file.pos]
      ensures ended && Progress(reply.asks) ==> data.contentLength == 0
      ensures stored <==> data.contentLength == 0 && (reply.keep || reply.status == StatusOK)
      ensures objects == if stored then old(objects)[key := data.file.data[old(data.file.pos)..]] else old(objects)
      ensures status == if reply.status == StatusOK && !stored then StatusFatal else reply.status
    {
      chunks, ended := AskChunks(data, reply.asks);
      stored := data.contentLength == 0 && (reply.keep || reply.status == StatusOK);
      status := if reply.status == StatusOK && !stored then StatusFatal else reply.status;
      if stored {
        assert data.file.data[old(data.file.pos)..data.file.pos] == data.file.data[old(data.file.pos)..];
        objects := objects[key := Concat(chunks)];
      }
    }

    /** Chunks of the object reach the stream until it has all of them or a write falls short. */
    method SendChunks(whole: Bytes, file: FileStream, asks: seq<Ask>) returns (written: seq<nat>)
      requires file.pos <= |file.data|
      modifies file
      ensures forall i :: 0 <= i < |written| ==> written[i] > 0
      ensures Sum(written) == Delivered(|whole|, asks)
      ensures file.pos == old(file.pos) + Sum(written) <= |file.data| && Sum(written) <= |whole|
      ensures file.data == WriteAt(old(file.data), old(file.pos), whole[..Sum(written)])
    {
      written := [];
      var died, i := false, 0;
      WriteAtNothing(file.data, file.pos);
      assert whole[..0] == [];
      while Sum(written) < |whole| && i < |asks| && !died
        invariant i <= |asks| && Received(file.data, file.pos, old(file.data), old(file.pos), whole, written)
        invariant Delivered(|whole|, asks)
               == Sum(written) + if died then 0 else Delivered(|whole| - Sum(written), asks[i..])
        decreases if died then 0 else 1, |asks| - i
      {
        var n := Least(asks[i].size, |whole| - Sum(written));
        var callback := StatusFatal;
        assert asks[i..][0] == asks[i] && asks[i..][1..] == asks[i + 1..];
        if n > 0 {
          callback, written := FetchChunk(whole, written, n, asks[i].most, file, old(file.data), old(file.pos));
        }
        died := callback != StatusOK;
        i := i + 1;
      }
    }

    /** S3_get_object: hands the object to the stream in chunks; it can succeed only when all of
        the object has been written. */
    method GetObject(key: Key, file: FileStream, reply: GetReply) returns (status: Status, written: seq<nat>)
      requires file.pos <= |file.data|
      modifies file
      ensures file.pos == old(file.pos) + Sum(written) <= |file.data|
      ensures forall i :: 0 <= i < |written| ==> written[i] > 0
      ensures key in objects ==> Sum(written) == Delivered(|objects[key]|, reply.asks)
      ensures key in objects ==> file.data == WriteAt(old(file.data), old(file.pos), objects[key][..Sum(written)])
      ensures key !in objects ==> written == [] && file.data == old(file.data) && status == StatusFatal
      ensures key in objects ==>
                var complete := Sum(written) == |objects[key]|;
                status == if reply.status == StatusOK && !complete then StatusFatal else reply.status
    {
      written := [];
      if key !in objects {
        return StatusFatal, written;
      }
      written := SendChunks(objects[key], file, reply.asks);
      status := if reply.status == StatusOK && Sum(written) < |objects[key]| then StatusFatal else reply.status;
    }
  }

  function Concat(chunks: seq<Bytes>): Bytes {
    if chunks == [] then [] else Concat(chunks[..|chunks| - 1]) + chunks[|chunks| - 1]
  }

  lemma ConcatSnoc(chunks: seq<Bytes>, chunk: Bytes)
    ensures Concat(chunks + [chunk]) == Concat(chunks) + chunk
  {
    assert (chunks + [chunk])[..|chunks|] == chunks;
  }

  function Sum(ns: seq<nat>): nat {
    if ns == [] then 0 else Sum(ns[..|ns| - 1]) + ns[|ns| - 1]
  }

  lemma SumSnoc(ns: seq<nat>, n: nat)
    ensures Sum(ns + [n]) == Sum(ns) + n
  {
    assert (ns + [n])[..|ns|] == ns;
  }

  // ---- The retry loops -------------------------------------------------------------

  const INT_MIN: int := -0x8000_0000
  const INT_MAX: int := 0x7fff_ffff

  /** `--retries` on a 32-bit two's complement int. */
  function Decremented(retries: int): int {
    if retries == INT_MIN then INT_MAX else retries - 1
  }

  /** The most attempts the do-while loop can make: the configured number when it is at
      least one, otherwise as many as it takes to count down through the whole range. */
  function Budget(retries: int): int {
    if retries > 0 then retries else retries + 0x1_0000_0000
  }

  /** Every attempt but the last ended with a status worth retrying. */
  predicate OnlyLastCounts(statuses: seq<Status>) {
    forall i :: 0 <= i < |statuses| - 1 ==> statuses[i] == StatusRetryable
  }

  /** The bookkeeping of both do-while loops: how their attempts so far have ended. */
  ghost predicate Counting(statuses: seq<Status>, again: bool, left: int, retries: int, status: Status) {
    && OnlyLastCounts(statuses)
    && INT_MIN <= left <= INT_MAX
    && |statuses| <= Budget(retries)
    && if again then
         |statuses| + Budget(left) == Budget(retries)
         && (forall i :: 0 <= i < |statuses| ==> statuses[i] == StatusRetryable)
       else
         && statuses != [] && statuses[|statuses| - 1] == status
         && (status == StatusRetryable ==> |statuses| == Budget(retries))
  }

  /** What `while (retryable && --retries)` makes of the counter and of the decision. */
  function Left(left: int, status: Status): int {
    if status == StatusRetryable then Decremented(left) else left
  }

  predicate GoesOn(left: int, status: Status) {
    status == StatusRetryable && Decremented(left) != 0
  }

  lemma Counted(statuses: seq<Status>, left: int, retries: int, was: Status, status: Status)
    requires Counting(statuses, true, left, retries, was)
    ensures Counting(statuses + [status], GoesOn(left, status), Left(left, status), retries, status)
    ensures GoesOn(left, status) ==> 0 <= Budget(Left(left, status)) < Budget(left)
  {
  }

  /** One request: bytes it consumed from the stream, whether the store kept the body, its status. */
  datatype Attempt = Attempt(sent: nat, stored: bool, status: Status)

  function Statuses(log: seq<Attempt>): (s: seq<Status>)
    ensures |s| == |log|
  {
    if log == [] then [] else Statuses(log[..|log| - 1]) + [log[|log| - 1].status]
  }

  function Consumed(log: seq<Attempt>): nat {
    if log == [] then 0 else Consumed(log[..|log| - 1]) + log[|log| - 1].sent
  }

  /** Attempts that the loop can have made on a file of these bytes. */
  predicate PossibleLog(data: Bytes, log: seq<Attempt>)
    ensures PossibleLog(data, log) ==> Consumed(log) <= |data|
  {
    if log == [] then true
    else
      var last := log[|log| - 1];
      && PossibleLog(data, log[..|log| - 1])
      && Consumed(log) <= |data|
      && (last.stored ==> Consumed(log) == |data|)
      && (last.status == StatusOK ==> last.stored)
  }

  /** The store after the attempts: each kept body is the file from where its attempt started. */
  function AfterAttempts(objects: map<Key, Bytes>, key: Key, data: Bytes, log: seq<Attempt>): map<Key, Bytes>
    requires PossibleLog(data, log)
  {
    if log == [] then objects
    else
      var before := log[..|log| - 1];
      var was := AfterAttempts(objects, key, data, before);
      if log[|log| - 1].stored then was[key := data[Consumed(before)..]] else was
  }

  /** The store's treatment of attempt `i`; without one the request dies at once. */
  function PutReplyAt(replies: seq<PutReply>, i: nat): PutReply {
    if i < |replies| then replies[i] else PutReply([], StatusFatal, false)
  }

  /** The attempt is what becomes of a request that starts with `left` bytes in the stream. */
  predicate IsAttempt(attempt: Attempt, left: nat, reply: PutReply) {
    && attempt.sent == Taken(left, reply.asks)
    && (attempt.stored <==> attempt.sent == left && (reply.keep || reply.status == StatusOK))
    && attempt.status == if reply.status == StatusOK && !attempt.stored then StatusFatal else reply.status
  }

  /** Each attempt is answered by its reply, and starts where the one before it stopped. */
  predicate Answered(size: nat, replies: seq<PutReply>, log: seq<Attempt>) {
    log == []
    || (var before := log[..|log| - 1];
        && Answered(size, replies, before) && Consumed(before) <= size
        && IsAttempt(log[|log| - 1], size - Consumed(before), PutReplyAt(replies, |before|)))
  }

  /** Attempts go on while they end with a status worth retrying, up to the configured number, and
      no longer. */
  predicate Persistent(statuses: seq<Status>, retries: int) {
    && 0 < |statuses| <= Budget(retries)
    && OnlyLastCounts(statuses)
    && (statuses[|statuses| - 1] == StatusRetryable ==> |statuses| == Budget(retries))
  }

  lemma {:induction false} StatusesAt(log: seq<Attempt>, i: nat)
    requires i < |log|
    ensures Statuses(log)[i] == log[i].status
  {
    if i < |log| - 1 {
      StatusesAt(log[..|log| - 1], i);
    }
  }

  /** The stream over the file, the announced length and the store after these attempts. */
  ghost predicate Sent(store: ObjectStore, before: map<Key, Bytes>, key: Key, data: PutData,
                       replies: seq<PutReply>, log: seq<Attempt>)
    reads store, data, data.file
  {
    && PossibleLog(data.file.data, log)
    && Answered(|data.file.data|, replies, log)
    && data.file.pos == Consumed(log)
    && data.file.pos + data.contentLength == |data.file.data|
    && store.objects == AfterAttempts(before, key, data.file.data, log)
  }

  /** One request of the loop. */
  method SendOnce(store: ObjectStore, ghost before: map<Key, Bytes>, key: Key, data: PutData,
                  replies: seq<PutReply>, log: seq<Attempt>)
    returns (status: Status, log': seq<Attempt>)
    requires Sent(store, before, key, data, replies, log)
    modifies store, data`contentLength, data.file`pos
    ensures Sent(store, before, key, data, replies, log')
    ensures Statuses(log') == Statuses(log) + [status]
    ensures |log'| == |log| + 1 && log'[..|log|] == log && log'[|log|].status == status
  {
    var lengthBefore := data.contentLength;
    var stored, chunks, ended;
    status, stored, chunks, ended := store.PutObject(key, data.contentLength, data, PutReplyAt(replies, |log|));
    var attempt := Attempt(lengthBefore - data.contentLength, stored, status);
    log' := log + [attempt];
    assert log'[..|log'| - 1] == log;
  }

  /** `s3_upload`. `usable`: dup, fstat and fdopen succeed; `closes`: so does fclose. Attempts are
      made as long as they are worth repeating and the budget lasts. The result is 0 exactly when
      the stream could be opened and closed and the last attempt succeeded; then the object is the
      file from where earlier attempts had left the stream, so it is the whole file exactly when
      they had consumed nothing. */
  method Upload(store: ObjectStore, fileData: Bytes, key: Key, retries: int,
                usable: bool, closes: bool, replies: seq<PutReply>) returns (ret: int, log: seq<Attempt>)
    requires INT_MIN <= retries <= INT_MAX
    modifies store
    ensures ret == 0 || ret == -1
    ensures !usable ==> log == [] && ret == -1
    ensures usable ==> Persistent(Statuses(log), retries)
    ensures usable && retries >= 1 ==> 1 <= |log| <= retries
    ensures usable && retries >= 1 && log[|log| - 1].status == StatusRetryable ==> |log| == retries
    ensures |log| > 1 ==> log[0].status == StatusRetryable
    ensures PossibleLog(fileData, log) && Answered(|fileData|, replies, log)
    ensures store.objects == AfterAttempts(old(store.objects), key, fileData, log)
    ensures ret == 0 <==> usable && closes && log != [] && log[|log| - 1].status == StatusOK
    ensures ret == 0 ==> key in store.objects && store.objects[key] == fileData[Consumed(log[..|log| - 1])..]
    ensures ret == 0 ==> (store.objects[key] == fileData <==> Consumed(log[..|log| - 1]) == 0)
  {
    ret, log := 0, [];
    if !usable {
      ret := -1;
      return;
    }
    var file := new FileStream(fileData);
    var data := new PutData(file, |fileData|);
    var left, status, again := retries, StatusRetryable, true;
    while again
      invariant data.file == file && file.data == fileData && Sent(store, old(store.objects), key, data, replies, log)
      invariant Counting(Statuses(log), again, left, retries, status)
      decreases if again then 1 else 0, Budget(left)
    {
      ghost var log0, left0, status0 := log, left, status;
      status, log := SendOnce(store, old(store.objects), key, data, replies, log);
      again := false;
      if status == StatusRetryable {
        left := Decremented(left);
        again := left != 0;
      }
      Counted(Statuses(log0), left0, retries, status0, status);
    }
    StatusesAt(log, |log| - 1);
    StatusesAt(log, 0);
    if status != StatusOK {
      ret := -1;
    }
    if !closes {
      ret := -1;
    }
  }

  /** One download request: the sizes of the chunks it wrote, and its status. */
  datatype Fetch = Fetch(written: seq<nat>, status: Status)

  function FetchStatuses(log: seq<Fetch>): (s: seq<Status>)
    ensures |s| == |log|
  {
    if log == [] then [] else FetchStatuses(log[..|log| - 1]) + [log[|log| - 1].status]
  }

  /** Bytes written by all attempts. */
  function Arrived(log: seq<Fetch>): nat {
    if log == [] then 0 else Arrived(log[..|log| - 1]) + Sum(log[|log| - 1].written)
  }

  /** An attempt that can have been made on an object of these bytes. */
  predicate PossibleFetch(whole: Bytes, fetch: Fetch) {
    && Sum(fetch.written) <= |whole|
    && (fetch.status == StatusOK ==> Sum(fetch.written) == |whole|)
    && forall j :: 0 <= j < |fetch.written| ==> fetch.written[j] > 0
  }

  predicate PossibleFetches(whole: Bytes, log: seq<Fetch>) {
    forall i :: 0 <= i < |log| ==> PossibleFetch(whole, log[i])
  }

  /** What the attempts wrote, in order: each starts the object anew, none rewinds the stream. */
  function Stream(whole: Bytes, log: seq<Fetch>): (b: Bytes)
    requires PossibleFetches(whole, log)
    ensures |b| == Arrived(log)
  {
    if log == [] then []
    else Stream(whole, log[..|log| - 1]) + whole[..Sum(log[|log| - 1].written)]
  }

  /** One more attempt: what it wrote follows what the others wrote. */
  lemma StreamSnoc(whole: Bytes, log: seq<Fetch>, fetch: Fetch, before: Bytes)
    requires PossibleFetches(whole, log) && PossibleFetch(whole, fetch)
    ensures PossibleFetches(whole, log + [fetch])
    ensures Arrived(log + [fetch]) == Arrived(log) + Sum(fetch.written)
    ensures Stream(whole, log + [fetch]) == Stream(whole, log) + whole[..Sum(fetch.written)]
    ensures WriteAt(WriteAt(before, 0, Stream(whole, log)), Arrived(log), whole[..Sum(fetch.written)])
         == WriteAt(before, 0, Stream(whole, log + [fetch]))
  {
    assert (log + [fetch])[..|log|] == log;
    WriteAtTwice(before, 0, Stream(whole, log), whole[..Sum(fetch.written)]);
  }

  /** A stream over a file of `before` bytes after these attempts. */
  predicate Fetched(objects: map<Key, Bytes>, key: Key, before: Bytes, data: Bytes, pos: nat, log: seq<Fetch>) {
    && pos == Arrived(log) <= |data|
    && if key in objects then
         PossibleFetches(objects[key], log) && data == WriteAt(before, 0, Stream(objects[key], log))
       else
         && data == before && pos == 0
         && forall i :: 0 <= i < |log| ==> log[i].written == [] && log[i].status == StatusFatal
  }

  /** One more attempt on an object that is there. */
  lemma FetchedMore(objects: map<Key, Bytes>, key: Key, before: Bytes, data: Bytes, pos: nat, log: seq<Fetch>,
                    fetch: Fetch, data': Bytes)
    requires Fetched(objects, key, before, data, pos, log) && key in objects && PossibleFetch(objects[key], fetch)
    requires data' == WriteAt(data, pos, objects[key][..Sum(fetch.written)])
    ensures Fetched(objects, key, before, data', pos + Sum(fetch.written), log + [fetch])
  {
    StreamSnoc(objects[key], log, fetch, before);
  }

  lemma FetchedNothing(objects: map<Key, Bytes>, key: Key, before: Bytes, data: Bytes, pos: nat, log: seq<Fetch>)
    requires Fetched(objects, key, before, data, pos, log) && key !in objects
    ensures Fetched(objects, key, before, data, pos, log + [Fetch([], StatusFatal)])
  {
    assert (log + [Fetch([], StatusFatal)])[..|log|] == log;
  }

  function GetReplyAt(replies: seq<GetReply>, i: nat): GetReply {
    if i < |replies| then replies[i] else GetReply([], StatusFatal)
  }

  /** The attempt is what becomes of a request for an object of `size` bytes. */
  predicate IsFetch(fetch: Fetch, size: nat, reply: GetReply) {
    && Sum(fetch.written) == Delivered(size, reply.asks)
    && fetch.status == if reply.status == StatusOK && Sum(fetch.written) < size then StatusFatal else reply.status
  }

  /** What the attempts were answered; an object that is missing is not asked for twice. */
  predicate AllAnswered(objects: map<Key, Bytes>, key: Key, replies: seq<GetReply>, log: seq<Fetch>) {
    log == []
    || (var before := log[..|log| - 1];
        && AllAnswered(objects, key, replies, before)
        && AnsweredAt(objects, key, GetReplyAt(replies, |before|), log[|log| - 1]))
  }

  predicate AnsweredAt(objects: map<Key, Bytes>, key: Key, reply: GetReply, fetch: Fetch) {
    if key in objects then IsFetch(fetch, |objects[key]|, reply) else fetch.status == StatusFatal
  }

  /** One request of the loop. */
  method FetchOnce(store: ObjectStore, key: Key, ghost before: Bytes, file: FileStream,
                   replies: seq<GetReply>, log: seq<Fetch>)
    returns (fetch: Fetch)
    requires Fetched(store.objects, key, before, file.data, file.pos, log)
    modifies file
    ensures Fetched(store.objects, key, before, file.data, file.pos, log + [fetch])
    ensures AnsweredAt(store.objects, key, GetReplyAt(replies, |log|), fetch)
  {
    ghost var data, pos := file.data, file.pos;
    var status, written := store.GetObject(key, file, GetReplyAt(replies, |log|));
    fetch := Fetch(written, status);
    if key in store.objects {
      FetchedMore(store.objects, key, before, data, pos, log, fetch, file.data);
    } else {
      FetchedNothing(store.objects, key, before, data, pos, log);
    }
  }

  /** The do-while loop of `s3_download`. */
  method FetchLoop(store: ObjectStore, key: Key, file: FileStream, retries: int, replies: seq<GetReply>)
    returns (status: Status, log: seq<Fetch>)
    requires INT_MIN <= retries <= INT_MAX && file.pos == 0
    modifies file
    ensures Fetched(store.objects, key, old(file.data), file.data, file.pos, log)
    ensures Persistent(FetchStatuses(log), retries) && AllAnswered(store.objects, key, replies, log)
    ensures log != [] && log[|log| - 1].status == status
    ensures retries >= 1 ==> |log| <= retries && (status == StatusRetryable ==> |log| == retries)
  {
    log := [];
    WriteAtNothing(file.data, 0);
    var left, again := retries, true;
    status := StatusRetryable;
    while again
      invariant Fetched(store.objects, key, old(file.data), file.data, file.pos, log)
      invariant Counting(FetchStatuses(log), again, left, retries, status)
      invariant AllAnswered(store.objects, key, replies, log)
      decreases if again then 1 else 0, Budget(left)
    {
      var fetch := FetchOnce(store, key, old(file.data), file, replies, log);
      Counted(FetchStatuses(log), left, retries, status, fetch.status);
      assert (log + [fetch])[..|log|] == log;
      log, status := log + [fetch], fetch.status;
      again := false;
      if status == StatusRetryable {
        left := Decremented(left);
        again := left != 0;
      }
    }
    assert FetchStatuses(log)[|log| - 1] == log[|log| - 1].status;
  }

  /** `s3_download` into a file of these bytes, opened at its beginning. `usable`: dup and fdopen
      succeed; `closes`: so does fclose. */
  method Download(store: ObjectStore, fileData: Bytes, key: Key, retries: int,
                  usable: bool, closes: bool, replies: seq<GetReply>)
    returns (ret: int, newData: Bytes, log: seq<Fetch>)
    requires INT_MIN <= retries <= INT_MAX
    ensures ret == 0 || ret == -1
    ensures !usable ==> log == [] && ret == -1 && newData == fileData
    ensures usable ==> Persistent(FetchStatuses(log), retries)
    ensures usable && retries >= 1 ==> 1 <= |log| <= retries
    ensures usable && retries >= 1 && log[|log| - 1].status == StatusRetryable ==> |log| == retries
    ensures AllAnswered(store.objects, key, replies, log)
    ensures key !in store.objects ==> ret == -1 && newData == fileData && Arrived(log) == 0
    ensures key !in store.objects ==> forall i :: 0 <= i < |log| ==> log[i].written == []
    ensures key in store.objects ==> PossibleFetches(store.objects[key], log)
    ensures key in store.objects ==> newData == WriteAt(fileData, 0, Stream(store.objects[key], log))
    ensures ret == 0 <==> usable && closes && log != [] && log[|log| - 1].status == StatusOK
    ensures ret == 0 ==> key in store.objects
    ensures ret == 0 ==>
              newData == WriteAt(fileData, 0, Stream(store.objects[key], log[..|log| - 1]) + store.objects[key])
    ensures ret == 0 ==> (newData == store.objects[key]
                          <==> Arrived(log[..|log| - 1]) == 0 && |fileData| <= |store.objects[key]|)
  {
    ret, log, newData := 0, [], fileData;
    WriteAtNothing(fileData, 0);
    if !usable {
      ret := -1;
      return;
    }
    var file := new FileStream(fileData);
    var status;
    status, log := FetchLoop(store, key, file, retries, replies);
    if status != StatusOK {
      ret := -1;
    }
    newData := file.data;
    if !closes {
      ret := -1;
    }
    if ret == 0 {
      CleanDownload(fileData, store.objects[key], log);
    }
  }

  /** After a successful download the file is the object exactly when earlier attempts wrote
      nothing and the file was not longer than the object. */
  lemma CleanDownload(fileData: Bytes, whole: Bytes, log: seq<Fetch>)
    requires PossibleFetches(whole, log) && log != [] && log[|log| - 1].status == StatusOK
    ensures var before := log[..|log| - 1];
            && Stream(whole, log) == Stream(whole, before) + whole
            && (WriteAt(fileData, 0, Stream(whole, log)) == whole <==> Arrived(before) == 0 && |fileData| <= |whole|)
  {
    assert whole[..|whole|] == whole;
    if Arrived(log[..|log| - 1]) == 0 {
      assert Stream(whole, log) == whole;
    }
  }
}
