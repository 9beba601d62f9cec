/** The pieces of Go's language and standard library whose exact behaviour the
    model depends on: reference-typed string maps, fixed-width integer
    conversions, `strconv.FormatBool`, `strings.Split` and `strings.Contains`. */
module GoBasics {

  datatype Option<+T> = None | Some(value: T)

  /** A value or the error a Go function returns instead of it. */
  datatype Result<+T, +E> = Ok(value: T) | Err(error: E)

  type byte = x: int | 0 <= x < 256

  /** A Go `map[string]string`. Go maps are references: copying a struct that
      holds one copies the reference, so every copy sees every write. */
  class StringMap {
    var entries: map<string, string>

    constructor (initial: map<string, string>)
      ensures entries == initial
    {
      entries := initial;
    }

    /** `m[key] = value` */
    method Put(key: string, value: string)
      modifies this
      ensures entries == old(entries)[key := value]
    {
      entries := entries[key := value];
    }
  }

  const U64_MODULUS: int := 0x1_0000_0000_0000_0000
  const I32_MODULUS: int := 0x1_0000_0000

  type uint64 = x: int | 0 <= x < U64_MODULUS

  /** `2 * x` in Go's uint64 arithmetic, which wraps around modulo 2^64. */
  function TwiceU64(x: uint64): (r: uint64)
    ensures x < U64_MODULUS / 2 ==> r == 2 * x
    ensures x >= U64_MODULUS / 2 ==> r == 2 * x - U64_MODULUS
  {
    (2 * x) % U64_MODULUS
  }

  /** `int32(x)` for a non-negative 64-bit value: keeps the low 32 bits and
      reads them as two's complement. */
  function ToInt32(x: int): (r: int)
    ensures -0x8000_0000 <= r < 0x8000_0000
    ensures 0 <= x < 0x8000_0000 ==> r == x
    ensures (x - r) % I32_MODULUS == 0
  {
    var low := x % I32_MODULUS;
    if low < 0x8000_0000 then low else low - I32_MODULUS
  }

  /** `int(x)` for a uint64 on a 64-bit platform: values of 2^63 and above
      read as negative. */
  function ToInt64(x: uint64): (r: int)
    ensures r < 0 <==> x >= 0x8000_0000_0000_0000
    ensures x < 0x8000_0000_0000_0000 ==> r == x
    ensures x >= 0x8000_0000_0000_0000 ==> r == x - U64_MODULUS
  {
    if x < 0x8000_0000_0000_0000 then x else x - U64_MODULUS
  }

  /** `strconv.FormatBool` */
  function FormatBool(b: bool): (r: string)
    ensures r == "true" <==> b
    ensures !b ==> r == "false"
  {
    if b then "true" else "false"
  }

  /** `strings.Split(s, string(sep))`: the pieces between occurrences of sep,
      always at least one. */
  function Split(s: string, sep: char): (parts: seq<string>)
    ensures |parts| >= 1
    ensures forall i :: 0 <= i < |parts| ==> sep !in parts[i]
    ensures |parts| == 1 <==> sep !in s
  {
    if |s| == 0 then [""]
    else
      var rest := Split(s[1..], sep);
      if s[0] == sep then [""] + rest
      else [[s[0]] + rest[0]] + rest[1..]
  }

  /** `strings.Join(parts, string(sep))` */
  function Join(parts: seq<string>, sep: char): string
    requires |parts| >= 1
  {
    if |parts| == 1 then parts[0] else parts[0] + [sep] + Join(parts[1..], sep)
  }

  /** Joining the pieces again gives back the original string. */
  lemma {:induction false} JoinSplit(s: string, sep: char)
    ensures Join(Split(s, sep), sep) == s
  {
    if |s| > 0 {
      var rest := Split(s[1..], sep);
      JoinSplit(s[1..], sep);
      if s[0] == sep {
        assert Split(s, sep) == [""] + rest;
        assert Join(Split(s, sep), sep) == "" + [sep] + Join(rest, sep);
      } else {
        var parts := Split(s, sep);
        assert parts == [[s[0]] + rest[0]] + rest[1..];
        if |rest| == 1 {
          assert Join(parts, sep) == [s[0]] + rest[0];
        } else {
          assert parts[1..] == rest[1..];
          assert Join(rest, sep) == rest[0] + [sep] + Join(rest[1..], sep);
        }
      }
    }
  }

  /** Split on a string that starts with a character other than sep: the
      character joins the first piece. */
  lemma SplitOther(c: char, t: string, sep: char)
    requires c != sep
    ensures Split([c] + t, sep) == [[c] + Split(t, sep)[0]] + Split(t, sep)[1..]
  {
    assert ([c] + t)[1..] == t;
  }

  /** Split on a string that starts with sep: an empty first piece. */
  lemma SplitSep(t: string, sep: char)
    ensures Split([sep] + t, sep) == [""] + Split(t, sep)
  {
    assert ([sep] + t)[1..] == t;
  }

  /** Joining pieces whose first is non-empty starts with that first
      character, followed by the join with it removed. */
  lemma JoinFirstChar(parts: seq<string>, sep: char)
    requires |parts| >= 1 && |parts[0]| > 0
    ensures Join(parts, sep) == [parts[0][0]] + Join([parts[0][1..]] + parts[1..], sep)
  {
    var shorter := [parts[0][1..]] + parts[1..];
    assert parts[0] == [parts[0][0]] + parts[0][1..];
    if |parts| > 1 {
      assert shorter[1..] == parts[1..];
    }
  }

  /** Splitting a string built from pieces without the separator gives the pieces. */
  lemma {:induction false} SplitJoin(parts: seq<string>, sep: char)
    requires |parts| >= 1
    requires forall i :: 0 <= i < |parts| ==> sep !in parts[i]
    ensures Split(Join(parts, sep), sep) == parts
    decreases |parts|, |parts[0]|
  {
    var head := parts[0];
    if |head| > 0 {
      var shorter := [head[1..]] + parts[1..];
      forall i | 0 <= i < |shorter| ensures sep !in shorter[i] {
        if i > 0 {
          assert shorter[i] == parts[i];
        }
      }
      SplitJoin(shorter, sep);
      JoinFirstChar(parts, sep);
      SplitOther(head[0], Join(shorter, sep), sep);
      assert head == [head[0]] + shorter[0];
      assert parts == [head] + shorter[1..];
    } else if |parts| > 1 {
      SplitJoin(parts[1..], sep);
      SplitSep(Join(parts[1..], sep), sep);
      assert parts == [""] + parts[1..];
    }
  }

  /** `strings.Contains(s, sub)` */
  function Contains(s: string, sub: string): (r: bool)
  {
    if |sub| <= |s| && s[..|sub|] == sub then true
    else if |s| == 0 then false
    else Contains(s[1..], sub)
  }

  /** sub occurs in s starting at offset i. */
  predicate OccursAt(s: string, sub: string, i: int)
  {
    0 <= i && i + |sub| <= |s| && s[i..i + |sub|] == sub
  }

  /** An occurrence in the tail of s is an occurrence in s one further on. */
  lemma OccursShift(s: string, sub: string, i: int)
    requires |s| > 0 && i >= 0
    ensures OccursAt(s[1..], sub, i) <==> OccursAt(s, sub, i + 1)
  {
    if 0 <= i && i + |sub| <= |s| - 1 {
      assert s[1..][i..i + |sub|] == s[i + 1..i + 1 + |sub|];
    }
  }

  /** Contains holds exactly when sub occurs at some offset of s. */
  lemma {:induction false} ContainsOccurs(s: string, sub: string)
    ensures Contains(s, sub) <==> exists i :: OccursAt(s, sub, i)
  {
    if |sub| <= |s| && s[..|sub|] == sub {
      assert OccursAt(s, sub, 0);
    } else if |s| == 0 {
      assert |sub| > 0;
    } else {
      ContainsOccurs(s[1..], sub);
      if Contains(s[1..], sub) {
        var i :| OccursAt(s[1..], sub, i);
        OccursShift(s, sub, i);
      } else {
        forall i ensures !OccursAt(s, sub, i) {
          if i <= 0 {
            assert |sub| <= |s| ==> s[..|sub|] == s[0..0 + |sub|];
          } else {
            OccursShift(s, sub, i - 1);
          }
        }
      }
    }
  }

  /** `fmt.Sprintf("%d", n)` for a non-negative n: decimal digits, no
      leading zero. */
  function DecimalString(n: nat): (r: string)
    ensures |r| >= 1 && '0' <= r[0] <= '9'
    ensures n >= 10 <==> |r| >= 2
    ensures forall i :: 0 <= i < |r| ==> '0' <= r[i] <= '9'
  {
    var digit := ['0' + (n % 10) as char];
    if n < 10 then digit else DecimalString(n / 10) + digit
  }

  /** Different numbers print differently. */
  lemma {:induction false} DecimalStringInjective(m: nat, n: nat)
    requires DecimalString(m) == DecimalString(n)
    ensures m == n
  {
    var s := DecimalString(m);
    assert s[|s| - 1] == '0' + (m % 10) as char;
    assert s[|s| - 1] == '0' + (n % 10) as char;
    if m >= 10 {
      assert DecimalString(m / 10) == s[..|s| - 1] == DecimalString(n / 10);
      DecimalStringInjective(m / 10, n / 10);
    }
  }
}
