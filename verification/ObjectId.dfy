/**
 Naming objects after paths: `s3_get_object_id_xattr_value`, and what becomes of the
 name when it is stored as an attribute of fixed size and read back.
 */
module ObjectId {

  type CString = s: string | '\0' !in s

  const NUL: char := '\0'

  function Dash(c: char): char {
    if c == '/' then '-' else c
  }

  function Dashed(s: string): (d: string)
    ensures |d| == |s|
    ensures forall i :: 0 <= i < |s| ==> d[i] == Dash(s[i])
  {
    seq(|s|, i requires 0 <= i < |s| => Dash(s[i]))
  }

  function Reversed(s: string): (r: string)
    ensures |r| == |s|
    ensures forall i :: 0 <= i < |s| ==> r[i] == s[|s| - 1 - i]
  {
    seq(|s|, i requires 0 <= i < |s| => s[|s| - 1 - i])
  }

  /** The part of the path that takes part in the name. */
  function Prefix(path: string, maxKey: nat): string {
    if |path| > maxKey then path[..maxKey] else path
  }

  /** The object id of a path, as a function. */
  function Name(path: string, maxKey: nat): (key: string)
    ensures |key| <= maxKey
  {
    Reversed(Dashed(Prefix(path, maxKey)))
  }

  /** The string that starts at the beginning of a buffer. */
  function CStr(buffer: seq<char>): string {
    if buffer == [] || buffer[0] == NUL then [] else [buffer[0]] + CStr(buffer[1..])
  }

  /** What follows a terminated string does not matter. */
  lemma {:induction false} CStrStops(s: seq<char>, rest: seq<char>)
    requires NUL in s
    ensures CStr(s + rest) == CStr(s)
  {
    if s[0] != NUL {
      assert (s + rest)[1..] == s[1..] + rest;
      CStrStops(s[1..], rest);
    }
  }

  lemma {:induction false} CStrOf(s: string, rest: seq<char>)
    requires NUL !in s
    ensures CStr(s + [NUL] + rest) == s
  {
    if s != [] {
      var whole := s + [NUL] + rest;
      assert whole[1..] == s[1..] + [NUL] + rest;
      CStrOf(s[1..], rest);
    }
  }

  /** How many characters of a path take part in its name. */
  function Least(a: nat, b: nat): nat {
    if a < b then a else b
  }

  /** The loop over the thread's static buffer of S3_XATTR_SIZE characters: the first characters of
      the path, at most `maxKey`, backwards and with '-' for '/', then the terminator, which is inside
      the buffer; nothing is written past it. */
  method GetObjectIdXattrValue(path: CString, maxKey: nat, buffer: array<char>)
    requires buffer.Length == maxKey + 1
    modifies buffer
    ensures var n := Least(|path|, maxKey);
            && buffer[n] == NUL
            && (forall i :: 0 <= i < n ==> buffer[i] == if path[n - 1 - i] == '/' then '-' else path[n - 1 - i])
            && (forall i :: n < i < buffer.Length ==> buffer[i] == old(buffer[i]))
    ensures var key := Name(path, maxKey);
            buffer[..] == key + [NUL] + old(buffer[..])[|key| + 1..]
  {
    var keyLen := if |path| > maxKey then maxKey else |path|;
    var pos := 0;
    while pos < keyLen
      invariant pos <= keyLen
      invariant forall i :: 0 <= i < pos ==> buffer[i] == Dash(path[keyLen - i - 1])
      invariant forall i :: pos <= i < buffer.Length ==> buffer[i] == old(buffer[i])
    {
      var c := path[keyLen - pos - 1];
      buffer[pos] := if c == '/' then '-' else c;
      pos := pos + 1;
    }
    buffer[pos] := NUL;
    assert buffer[..] == Name(path, maxKey) + [NUL] + old(buffer[..])[keyLen + 1..];
  }

  lemma NameHasNoNul(path: CString, maxKey: nat)
    ensures NUL !in Name(path, maxKey)
  {
    var p := Prefix(path, maxKey);
    forall i | 0 <= i < |p| ensures Reversed(Dashed(p))[i] != NUL {
      assert p[|p| - 1 - i] in path;
    }
  }

  /** The whole buffer is stored as the attribute and read back whole, stale characters
      included; the name used by the download is the one the upload used. */
  lemma AttributeRoundTrip(path: CString, maxKey: nat, stale: seq<char>)
    ensures CStr(Name(path, maxKey) + [NUL] + stale) == Name(path, maxKey)
  {
    NameHasNoNul(path, maxKey);
    CStrOf(Name(path, maxKey), stale);
  }

  lemma ReversedTwice(s: string)
    ensures Reversed(Reversed(s)) == s
  {
  }

  /** A path's name, character by character. */
  lemma NameAt(path: string, maxKey: nat)
    ensures var n := Least(|path|, maxKey);
            && |Name(path, maxKey)| == n
            && forall i :: 0 <= i < n ==>
                 Name(path, maxKey)[i] == if path[n - 1 - i] == '/' then '-' else path[n - 1 - i]
  {
    var prefix := Prefix(path, maxKey);
    forall i | 0 <= i < |prefix| ensures Name(path, maxKey)[i] == Dash(prefix[|prefix| - 1 - i]) {
    }
  }

  /** Two paths share an object exactly when as many of their characters count, and those agree, in
      their places, once '/' and '-' are not told apart. */
  lemma CollisionIff(p: string, q: string, maxKey: nat)
    ensures Name(p, maxKey) == Name(q, maxKey) <==>
              && Least(|p|, maxKey) == Least(|q|, maxKey)
              && forall i :: 0 <= i < Least(|p|, maxKey) ==>
                   p[i] == q[i] || (p[i] in {'/', '-'} && q[i] in {'/', '-'})
  {
    NameAt(p, maxKey);
    NameAt(q, maxKey);
    var n, a, b := Least(|p|, maxKey), Name(p, maxKey), Name(q, maxKey);
    if n == Least(|q|, maxKey) {
      forall i | 0 <= i < n
        ensures var c, d := p[n - 1 - i], q[n - 1 - i];
                a[i] == b[i] <==> c == d || (c in {'/', '-'} && d in {'/', '-'})
      {
      }
      if a == b {
        forall i | 0 <= i < n ensures p[i] == q[i] || (p[i] in {'/', '-'} && q[i] in {'/', '-'}) {
          assert a[n - 1 - i] == b[n - 1 - i];
        }
      }
    }
  }

  /** The path a name comes from, if it had no '-'. */
  function PathOf(key: string): string {
    var r := Reversed(key);
    seq(|r|, i requires 0 <= i < |r| => if r[i] == '-' then '/' else r[i])
  }

  /** What comes back, character by character: every '-' has become a '/'. */
  lemma PathOfName(path: string, maxKey: nat)
    ensures var p, back := Prefix(path, maxKey), PathOf(Name(path, maxKey));
            |back| == |p| && forall i :: 0 <= i < |p| ==> back[i] == if p[i] == '-' then '/' else p[i]
  {
    var d := Dashed(Prefix(path, maxKey));
    ReversedTwice(d);
    assert Reversed(Name(path, maxKey)) == d;
  }

  lemma SlashedIff(p: string, back: string)
    requires |back| == |p| && forall i :: 0 <= i < |p| ==> back[i] == if p[i] == '-' then '/' else p[i]
    ensures back == p <==> '-' !in p
  {
    if '-' in p {
      var i :| 0 <= i < |p| && p[i] == '-';
      assert back[i] != p[i];
    }
  }

  /** Naming can be undone exactly for the paths within the limit that contain no '-'. */
  lemma NameInvertibleIff(path: string, maxKey: nat)
    ensures PathOf(Name(path, maxKey)) == path <==> '-' !in path && |path| <= maxKey
  {
    PathOfName(path, maxKey);
    SlashedIff(Prefix(path, maxKey), PathOf(Name(path, maxKey)));
  }

  /** So distinct paths of that kind never share an object. */
  lemma NoCollisionWithoutDash(p: string, q: string, maxKey: nat)
    requires '-' !in p && '-' !in q && |p| <= maxKey && |q| <= maxKey
    ensures Name(p, maxKey) == Name(q, maxKey) <==> p == q
  {
    NameInvertibleIff(p, maxKey);
    NameInvertibleIff(q, maxKey);
  }
}
