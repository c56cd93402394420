/**
 The content of a regular file under truncation and writing.
 */
module FileBytes {
  import opened Bytes

  function Zeros(n: nat): (z: Bytes)
    ensures |z| == n
  {
    seq(n, _ => 0)
  }

  /** `ftruncate`: cut, or grow with zero bytes. */
  function Resize(data: Bytes, size: nat): (d: Bytes)
    ensures |d| == size
  {
    if size <= |data| then data[..size] else data + Zeros(size - |data|)
  }

  /** A write of `chunk` at `pos`; what lies beyond its end stays. */
  function WriteAt(data: Bytes, pos: nat, chunk: Bytes): (d: Bytes)
    ensures |d| == if pos + |chunk| >= |data| then pos + |chunk| else |data|
  {
    if pos + |chunk| >= |data| then Resize(data, pos) + chunk
    else data[..pos] + chunk + data[pos + |chunk|..]
  }

  lemma WriteAtPrefix(data: Bytes, pos: nat, chunk: Bytes)
    requires pos <= |data|
    ensures var d := WriteAt(data, pos, chunk);
            d[..pos] == data[..pos] && pos + |chunk| <= |d| && d[..pos + |chunk|] == data[..pos] + chunk
  {
  }

  /** Two writes one after the other are one write of both. */
  lemma WriteAtTwice(data: Bytes, pos: nat, first: Bytes, second: Bytes)
    requires pos <= |data|
    ensures WriteAt(WriteAt(data, pos, first), pos + |first|, second) == WriteAt(data, pos, first + second)
  {
  }

  lemma WriteAtNothing(data: Bytes, pos: nat)
    requires pos <= |data|
    ensures WriteAt(data, pos, []) == data
  {
  }
}
