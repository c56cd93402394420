/**
 A download request: the /proc path a process prints for its descriptor, the queue
 element it becomes, and the string the daemon reads out of it.
 */
module RequestPath {
  import opened Bytes
  import O = ObjectId
  import Q = Queue

  /** 10 + 20 + 20 + 1, as the header has it. */
  const PROC_PID_FD_FD_PATH_MAX_LEN: nat := 51

  /** The numbers printed are unsigned long long. */
  const U64: nat := 0x1_0000_0000_0000_0000

  const PROC: string := "/proc/"
  const FD: string := "/fd/"

  function Digit(d: nat): (c: char)
    requires d < 10
    ensures '0' <= c <= '9' && c != '/' && c != '\0'
  {
    '0' + d as char
  }

  function Value(c: char): nat
    requires '0' <= c <= '9'
  {
    (c - '0') as nat
  }

  predicate AllDigits(s: string) {
    forall i :: 0 <= i < |s| ==> '0' <= s[i] <= '9'
  }

  /** %llu. */
  function Decimal(n: nat): (s: string)
    ensures |s| > 0 && AllDigits(s)
  {
    if n < 10 then [Digit(n)] else Decimal(n / 10) + [Digit(n % 10)]
  }

  function Parse(s: string): nat
    requires AllDigits(s)
  {
    if s == [] then 0 else 10 * Parse(s[..|s| - 1]) + Value(s[|s| - 1])
  }

  lemma {:induction false} ParseDecimal(n: nat)
    ensures Parse(Decimal(n)) == n
  {
    if n >= 10 {
      ParseDecimal(n / 10);
      assert Decimal(n)[..|Decimal(n)| - 1] == Decimal(n / 10);
    } else {
      assert Decimal(n)[..0] == [];
    }
  }

  /** The numeral of a number: digits, no leading zero. */
  predicate Number(s: string, n: nat) {
    s != "" && AllDigits(s) && Parse(s) == n && (s[0] == '0' ==> |s| == 1)
  }

  lemma ZeroNumeral(s: string, n: nat)
    requires Number(s, n)
    ensures s[0] == '0' ==> n == 0
  {
    if s[0] == '0' {
      assert s[..0] == [] && Parse(s) == 10 * Parse(s[..0]) + Value(s[0]);
    }
  }

  lemma {:induction false} DecimalNumber(n: nat)
    ensures Number(Decimal(n), n)
  {
    ParseDecimal(n);
    if n >= 10 {
      DecimalNumber(n / 10);
      ZeroNumeral(Decimal(n / 10), n / 10);
    }
  }

  lemma {:induction false} ParsePositive(s: string)
    requires s != "" && AllDigits(s) && s[0] != '0'
    ensures Parse(s) >= 1
  {
    if |s| > 1 {
      ParsePositive(s[..|s| - 1]);
    } else {
      assert s[..0] == [];
    }
  }

  /** A number has one numeral. */
  lemma {:induction false} NumeralUnique(a: string, b: string, n: nat)
    requires Number(a, n) && Number(b, n)
    ensures a == b
    decreases |a|
  {
    var a', b' := a[..|a| - 1], b[..|b| - 1];
    assert Parse(a) == 10 * Parse(a') + Value(a[|a| - 1]) && Parse(b) == 10 * Parse(b') + Value(b[|b| - 1]);
    assert Parse(a') == Parse(b') && a[|a| - 1] == b[|b| - 1];
    if |a| > 1 {
      ParsePositive(a');
    }
    if |b| > 1 {
      ParsePositive(b');
    }
    if |a| > 1 && |b| > 1 {
      NumeralUnique(a', b', Parse(a'));
    }
    assert a == a' + [a[|a| - 1]] && b == b' + [b[|b| - 1]];
  }

  function Pow10(k: nat): nat {
    if k == 0 then 1 else 10 * Pow10(k - 1)
  }

  /** A number has at most `k` digits exactly when it is below ten to the `k`. */
  lemma {:induction false} DecimalLength(n: nat, k: nat)
    requires k > 0
    ensures |Decimal(n)| <= k <==> n < Pow10(k)
  {
    if k == 1 {
      assert Pow10(0) == 1;
    } else if n >= 10 {
      DecimalLength(n / 10, k - 1);
    } else {
      PowTen(k);
    }
  }

  lemma {:induction false} PowTen(k: nat)
    requires k > 0
    ensures Pow10(k) >= 10
  {
    if k == 1 {
      assert Pow10(0) == 1;
    } else {
      PowTen(k - 1);
    }
  }

  /** snprintf of "/proc/%llu/fd/%llu". */
  function Printed(pid: nat, fd: nat): string {
    PROC + Decimal(pid) + FD + Decimal(fd)
  }

  /** The text names descriptor `fd` of process `pid`. */
  ghost predicate Names(text: string, pid: nat, fd: nat) {
    exists a: string, b: string :: Number(a, pid) && Number(b, fd) && text == "/proc/" + a + "/fd/" + b
  }

  /** What is printed is the one text that names the descriptor. */
  lemma PrintedIff(text: string, pid: nat, fd: nat)
    ensures text == Printed(pid, fd) <==> Names(text, pid, fd)
  {
    DecimalNumber(pid);
    DecimalNumber(fd);
    if Names(text, pid, fd) {
      var a: string, b: string :| Number(a, pid) && Number(b, fd) && text == "/proc/" + a + "/fd/" + b;
      NumeralUnique(a, Decimal(pid), pid);
      NumeralUnique(b, Decimal(fd), fd);
    }
  }

  /** Two small requests, spelt out. */
  lemma PrintedExamples()
    ensures Printed(7, 3) == "/proc/7/fd/3" && Printed(120, 45) == "/proc/120/fd/45"
  {
    assert Decimal(12) == "12" && Decimal(120) == "120" && Decimal(45) == "45";
  }

  /** Any two 64-bit numbers fit the buffer, terminator included, so nothing is cut off. */
  lemma PrintedFits(pid: nat, fd: nat)
    requires pid < U64 && fd < U64
    ensures |Printed(pid, fd)| + 1 <= PROC_PID_FD_FD_PATH_MAX_LEN
  {
    PowTwenty();
    DecimalLength(pid, 20);
    DecimalLength(fd, 20);
  }

  lemma PowTwenty()
    ensures Pow10(20) == 100000000000000000000 && Pow10(19) == 10000000000000000000
  {
    assert Pow10(5) == 100000;
    assert Pow10(10) == 100000 * Pow10(5);
    assert Pow10(15) == 100000 * Pow10(10);
    assert Pow10(19) == 10000 * Pow10(15);
  }

  /** The buffer is no larger than the worst case demands. */
  lemma WorstCaseFills()
    ensures |Printed(U64 - 1, U64 - 1)| + 1 == PROC_PID_FD_FD_PATH_MAX_LEN
  {
    PowTwenty();
    DecimalLength(U64 - 1, 20);
    DecimalLength(U64 - 1, 19);
  }

  function UpToSlash(s: string): string {
    if s == [] || s[0] == '/' then [] else [s[0]] + UpToSlash(s[1..])
  }

  lemma {:induction false} UpToSlashOf(a: string, x: string)
    requires '/' !in a
    ensures UpToSlash(a + ['/'] + x) == a
  {
    if a != [] {
      assert (a + ['/'] + x)[1..] == a[1..] + ['/'] + x;
      UpToSlashOf(a[1..], x);
    }
  }

  /** The part before the first '/' and the part after it are determined by the whole. */
  lemma SplitAtSlash(a: string, x: string, b: string, y: string)
    requires '/' !in a && '/' !in b && a + ['/'] + x == b + ['/'] + y
    ensures a == b && x == y
  {
    UpToSlashOf(a, x);
    UpToSlashOf(b, y);
    assert x == (a + ['/'] + x)[|a| + 1..] && y == (b + ['/'] + y)[|b| + 1..];
  }

  /** Different requests are printed differently. */
  lemma PrintedInjective(pid: nat, fd: nat, pid': nat, fd': nat)
    ensures Printed(pid, fd) == Printed(pid', fd') <==> pid == pid' && fd == fd'
  {
    if Printed(pid, fd) == Printed(pid', fd') {
      var rest, rest' := "fd/" + Decimal(fd), "fd/" + Decimal(fd');
      assert Printed(pid, fd) == PROC + (Decimal(pid) + ['/'] + rest);
      assert Printed(pid', fd') == PROC + (Decimal(pid') + ['/'] + rest');
      assert Printed(pid, fd)[|PROC|..] == Decimal(pid) + ['/'] + rest;
      SplitAtSlash(Decimal(pid), rest, Decimal(pid'), rest');
      assert rest[3..] == Decimal(fd) && rest'[3..] == Decimal(fd');
      ParseDecimal(pid);
      ParseDecimal(pid');
      ParseDecimal(fd);
      ParseDecimal(fd');
    }
  }

  // ---- Through the queue -----------------------------------------------------------

  predicate Ascii(s: string) {
    forall i :: 0 <= i < |s| ==> '\0' < s[i] < 128 as char
  }

  lemma PrintedAscii(pid: nat, fd: nat)
    ensures Ascii(Printed(pid, fd))
  {
  }

  function ToBytes(s: string): (b: Bytes)
    requires Ascii(s)
    ensures |b| == |s|
  {
    seq(|s|, i requires 0 <= i < |s| => s[i] as int)
  }

  function FromBytes(b: Bytes): (s: string)
    ensures |s| == |b|
  {
    seq(|b|, i requires 0 <= i < |b| => b[i] as char)
  }

  /** The C string a reader finds at the start of some bytes. */
  function Text(b: Bytes): string {
    O.CStr(FromBytes(b))
  }

  /** A terminated string is found whatever follows it. */
  lemma TextOf(s: string, after: Bytes)
    requires Ascii(s)
    ensures Text(ToBytes(s) + [0] + after) == s
  {
    var whole := FromBytes(ToBytes(s) + [0] + after);
    var rest := FromBytes(after);
    assert whole == s + [O.NUL] + rest;
    assert forall i :: 0 <= i < |s| ==> s[i] != O.NUL;
    O.CStrOf(s, rest);
  }

  /** The request of (`pid`, `fd`) as a queue element: the whole buffer, a terminated text that names
      the descriptor, then whatever was on the stack. */
  ghost predicate IsRequest(b: Bytes, pid: nat, fd: nat) {
    |b| == PROC_PID_FD_FD_PATH_MAX_LEN && 0 in b && Names(Text(b), pid, fd)
  }

  /** A buffer that begins with the printed text and its terminator is a request. */
  lemma RequestMade(b: Bytes, pid: nat, fd: nat)
    requires |b| == PROC_PID_FD_FD_PATH_MAX_LEN && Ascii(Printed(pid, fd)) && ToBytes(Printed(pid, fd)) + [0] <= b
    ensures IsRequest(b, pid, fd)
  {
    var s := Printed(pid, fd);
    assert b == ToBytes(s) + [0] + b[|s| + 1..];
    assert b[|s|] == 0;
    TextOf(s, b[|s| + 1..]);
    PrintedIff(s, pid, fd);
  }

  /** The daemon reads back the very text that was printed, also from a larger buffer that
      still holds older bytes. */
  lemma RequestReads(b: Bytes, pid: nat, fd: nat, older: Bytes)
    requires IsRequest(b, pid, fd)
    ensures Text(b + older) == Printed(pid, fd) && Names(Text(b + older), pid, fd)
  {
    TerminatedText(b, older);
    PrintedIff(Text(b), pid, fd);
  }

  lemma TerminatedText(b: Bytes, older: Bytes)
    requires 0 in b
    ensures Text(b + older) == Text(b)
  {
    var i :| 0 <= i < |b| && b[i] == 0;
    assert FromBytes(b)[i] == O.NUL;
    assert FromBytes(b + older) == FromBytes(b) + FromBytes(older);
    O.CStrStops(FromBytes(b), FromBytes(older));
  }

  /** `schedule_download`: print, then push. `queue` is null when the shared queue could not
      be mapped; the buffer is a fresh stack array of unknown content. */
  method ScheduleDownload(queue: Q.Queue?, pid: nat, fd: nat, stack: array<byte>) returns (r: Q.Outcome)
    requires queue != null ==> queue.Valid() && stack != queue.region
    requires pid < U64 && fd < U64 && stack.Length == PROC_PID_FD_FD_PATH_MAX_LEN
    modifies stack, queue, if queue != null then {queue.region} else {}
    ensures queue != null ==> queue.Valid()
    ensures r == Q.Fail <==> queue == null || queue.dataMaxSize < PROC_PID_FD_FD_PATH_MAX_LEN
    ensures r == Q.Blocked <==>
              queue != null && PROC_PID_FD_FD_PATH_MAX_LEN <= queue.dataMaxSize && old(queue.curSize) == queue.maxSize
    ensures r == Q.Ok ==> queue.pushed == old(queue.pushed) + [stack[..]] && 0 in stack[..]
    ensures r == Q.Ok ==>
              exists a, b :: Number(a, pid) && Number(b, fd) && Text(stack[..]) == "/proc/" + a + "/fd/" + b
    ensures queue != null && r != Q.Ok ==> queue.pushed == old(queue.pushed)
  {
    if queue == null {
      return Q.Fail;
    }
    PrintedAscii(pid, fd);
    PrintedFits(pid, fd);
    var text := ToBytes(Printed(pid, fd)) + [0];
    forall i | 0 <= i < |text| {
      stack[i] := text[i];
    }
    assert stack[..|text|] == text;
    assert stack[..][..|text|] == text;
    assert stack[..stack.Length] == stack[..];
    RequestMade(stack[..], pid, fd);
    r := queue.PushCommon(stack, PROC_PID_FD_FD_PATH_MAX_LEN, true);
  }

  /** The daemon's side: take the front element into the path buffer and read it as a string. It is
      the text at the start of the element, terminated there, and so the one the requester printed. */
  method ReadRequest(queue: Q.Queue, path: array<byte>) returns (r: Q.Outcome, text: string)
    requires queue.Valid() && path != queue.region && queue.dataMaxSize <= path.Length
    modifies queue, path
    ensures queue.Valid() && queue.pushed == old(queue.pushed)
    ensures r == if old(queue.curSize) != 0 then Q.Ok else Q.Fail
    ensures r == Q.Ok ==> queue.popped == old(queue.popped) + 1
    ensures r == Q.Ok ==>
              var front := old(queue.pushed[queue.popped]);
              0 in front ==> text == Text(front)
    ensures r == Q.Ok ==> forall pid: nat, fd: nat ::
              IsRequest(old(queue.pushed[queue.popped]), pid, fd) ==>
                exists a, b :: Number(a, pid) && Number(b, fd) && text == "/proc/" + a + "/fd/" + b
  {
    var size;
    text := "";
    if queue.curSize > 0 {
      queue.FrontInPlace();
    }
    ghost var front := if queue.curSize > 0 then queue.Contents()[0] else [];
    r, size := queue.TryPop(path, path.Length);
    if r == Q.Ok {
      text := Text(path[..]);
      ghost var older := path[..][size..];
      assert path[..] == front + older;
      if 0 in front {
        TerminatedText(front, older);
      }
    }
  }
}
