/** Model of the sound-control sysfs attributes: `highperf_enabled`, which
    shows and stores the headphone high-performance flag, and `version`. */
module SoundControl {

  datatype Option<T> = None | Some(value: T)

  const SoundcontrolVersion: int := 0

  /** The sysfs write buffer is a zero-filled page holding the `count` bytes
      written, so a byte past them reads as NUL. */
  function PageByte(buf: string, i: nat): char
  {
    if i < |buf| then buf[i] else '\0'
  }

  /** What hph_perf_store accepts: `'0'` or `'1'` followed by a newline; the
      rest of the buffer is ignored. */
  function ParseHphPerf(buf: string): (r: Option<int>)
    ensures r.Some? <==> |buf| >= 2 && buf[0] in "01" && buf[1] == '\n'
    ensures r.Some? ==> r.value == (if buf[0] == '1' then 1 else 0)
  {
    if '0' <= PageByte(buf, 0) <= '1' && PageByte(buf, 1) == '\n'
    then Some(PageByte(buf, 0) as int - '0' as int)
    else None
  }

  /** The flag after storing `buf` over `mode`. */
  function StoreResult(mode: int, buf: string): int
  {
    match ParseHphPerf(buf)
    case Some(v) => v
    case None => mode
  }

  function DigitChar(d: nat): (c: char)
    requires d < 10
  {
    ('0' as int + d) as char
  }

  /** `%d` of a non-negative value: its decimal digits, most significant first. */
  function Digits(n: nat): (s: string)
    ensures |s| >= 1
    ensures forall i :: 0 <= i < |s| ==> '0' <= s[i] <= '9'
    ensures n < 10 <==> |s| == 1
    decreases n
  {
    if n < 10 then [DigitChar(n)] else Digits(n / 10) + [DigitChar(n % 10)]
  }

  /** `%d` of any value. */
  function Decimal(v: int): string
  {
    if v < 0 then "-" + Digits(-v) else Digits(v)
  }

  /** The text hph_perf_show writes for a flag value. */
  function ShowText(v: int): string
  {
    Decimal(v) + "\n"
  }

  /** Feeding show's output back to store never changes the flag: 0 and 1
      are re-stored as themselves, and every other value's text is refused
      (a sign, a digit above 1, or a second digit where the newline must be). */
  lemma {:induction false} ShowThenStore(v: int)
    ensures StoreResult(v, ShowText(v)) == v
  {
    var t := ShowText(v);
    if v < 0 {
      assert t[0] == '-';
    } else if v < 10 {
      assert Digits(v) == [DigitChar(v)];
      assert t[0] == DigitChar(v) && t[1] == '\n';
    } else {
      var d := Digits(v);
      assert |d| >= 2;
      assert t[1] == d[1];
    }
  }

  /** An accepted store followed by show writes back exactly the two bytes
      that were accepted. */
  lemma StoreThenShow(mode: int, buf: string)
    requires ParseHphPerf(buf).Some?
    ensures ShowText(StoreResult(mode, buf)) == buf[..2]
  {
    var v := StoreResult(mode, buf);
    assert Digits(v) == [DigitChar(v)];
  }

  /** Storing twice is storing once, and an accepted store leaves 0 or 1. */
  lemma StoreIdempotent(mode: int, buf: string)
    ensures StoreResult(StoreResult(mode, buf), buf) == StoreResult(mode, buf)
    ensures ParseHphPerf(buf).Some? ==> StoreResult(mode, buf) in {0, 1}
    ensures ParseHphPerf(buf).None? ==> StoreResult(mode, buf) == mode
  {
  }

  /** soundcontrol_version's output: `SOUNDCONTROL_VERSION` in decimal and a newline. */
  method SoundcontrolVersionShow() returns (buf: string, count: nat)
    ensures buf == "0\n" && count == 2
  {
    buf := ShowText(SoundcontrolVersion);
    count := |buf|;
  }

  class SoundControlDevice {
    /** high_perf_mode, owned by the headphone codec driver. */
    var highPerfMode: int

    constructor (mode: int)
      ensures highPerfMode == mode
    {
      highPerfMode := mode;
    }

    /** hph_perf_show: the flag in decimal and a newline, and its length. */
    method HphPerfShow() returns (buf: string, count: nat)
      ensures buf == ShowText(highPerfMode) && count == |buf|
      ensures highPerfMode in {0, 1} ==> buf == [DigitChar(highPerfMode), '\n'] && count == 2
    {
      buf := Decimal(highPerfMode) + "\n";
      count := |buf|;
    }

    /** hph_perf_store: set the flag from an accepted buffer, ignore any
        other, and report every written byte as consumed. */
    method HphPerfStore(buf: string) returns (count: nat)
      modifies this`highPerfMode
      ensures count == |buf|
      ensures highPerfMode == StoreResult(old(highPerfMode), buf)
    {
      if '0' <= PageByte(buf, 0) <= '1' && PageByte(buf, 1) == '\n' {
        if highPerfMode != PageByte(buf, 0) as int - '0' as int {
          highPerfMode := PageByte(buf, 0) as int - '0' as int;
        }
      }
      count := |buf|;
    }
  }
}
