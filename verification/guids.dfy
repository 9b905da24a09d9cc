/** Fresh activity ids. A GUID written in the "N" format is 32 lower-case hexadecimal
    digits. The model draws GUIDs from a counter instead of a random source, so that
    "every generated id differs from every earlier one" is a theorem rather than a
    probability: the id for counter value n is n in lower-case hexadecimal, padded with
    leading zeros to at least 32 digits. */
module Guids {

  /** Number of digits in the "N" rendering of a GUID. */
  const GuidWidth: nat := 32

  predicate IsHexDigit(c: char) {
    ('0' <= c <= '9') || ('a' <= c <= 'f')
  }

  function HexDigit(d: nat): (c: char)
    requires d < 16
    ensures IsHexDigit(c)
  {
    if d < 10 then (48 + d) as char else (87 + d) as char
  }

  function DigitValue(c: char): nat {
    if '0' <= c <= '9' then c as int - 48
    else if 'a' <= c <= 'f' then c as int - 87
    else 0
  }

  /** n in lower-case hexadecimal, most significant digit first, no leading zeros. */
  function Hex(n: nat): (s: string)
    ensures |s| >= 1
    ensures forall i :: 0 <= i < |s| ==> IsHexDigit(s[i])
    decreases n
  {
    if n < 16 then [HexDigit(n)] else Hex(n / 16) + [HexDigit(n % 16)]
  }

  /** The value of a string of hexadecimal digits, most significant first. */
  function ParseHex(s: string): nat {
    if |s| == 0 then 0 else ParseHex(s[..|s| - 1]) * 16 + DigitValue(s[|s| - 1])
  }

  function Zeros(k: nat): (s: string)
    ensures |s| == k
    ensures forall i :: 0 <= i < k ==> s[i] == '0'
  {
    seq(k, _ => '0')
  }

  /** The id text of the n-th GUID drawn from the supply. */
  function GuidText(n: nat): (s: string)
    ensures |s| >= GuidWidth
    ensures forall i :: 0 <= i < |s| ==> IsHexDigit(s[i])
    ensures ParseHex(s) == n
  {
    var h := Hex(n);
    HexRoundTrip(n);
    if |h| < GuidWidth then
      LeadingZerosAddNothing(GuidWidth - |h|, h);
      Zeros(GuidWidth - |h|) + h
    else h
  }

  lemma DigitRoundTrip(d: nat)
    requires d < 16
    ensures DigitValue(HexDigit(d)) == d
  {
  }

  lemma {:induction false} HexRoundTrip(n: nat)
    ensures ParseHex(Hex(n)) == n
    decreases n
  {
    if n < 16 {
      DigitRoundTrip(n);
      assert [HexDigit(n)][..0] == [];
    } else {
      HexRoundTrip(n / 16);
      DigitRoundTrip(n % 16);
      var s := Hex(n / 16) + [HexDigit(n % 16)];
      assert s[..|s| - 1] == Hex(n / 16);
      assert s[|s| - 1] == HexDigit(n % 16);
      assert ParseHex(s) == (n / 16) * 16 + n % 16;
    }
  }

  lemma {:induction false} ZerosParseToZero(k: nat)
    ensures ParseHex(Zeros(k)) == 0
  {
    if k > 0 {
      ZerosParseToZero(k - 1);
      assert Zeros(k)[..k - 1] == Zeros(k - 1);
    }
  }

  /** Leading zeros do not change the value of a hexadecimal numeral. */
  lemma {:induction false} LeadingZerosAddNothing(k: nat, h: string)
    ensures ParseHex(Zeros(k) + h) == ParseHex(h)
    decreases |h|
  {
    if |h| == 0 {
      assert Zeros(k) + h == Zeros(k);
      ZerosParseToZero(k);
    } else {
      var s := Zeros(k) + h;
      assert s[..|s| - 1] == Zeros(k) + h[..|h| - 1];
      LeadingZerosAddNothing(k, h[..|h| - 1]);
    }
  }

  /** Different counter values give different ids. */
  lemma GuidTextInjective(m: nat, n: nat)
    ensures GuidText(m) == GuidText(n) ==> m == n
  {
  }

  /** The id source: how many GUIDs have been drawn so far. */
  datatype IdSupply = IdSupply(next: nat)

  /** Every id the supply has handed out. */
  function Issued(supply: IdSupply): set<string> {
    set k | 0 <= k < supply.next :: GuidText(k)
  }

  /** Draws a GUID: it is a 32-or-more-digit hexadecimal string that was never handed out
      before, and afterwards it is the only id added to the issued set. */
  function NewGuid(supply: IdSupply): (r: (string, IdSupply))
    ensures |r.0| >= GuidWidth
    ensures r.0 !in Issued(supply)
    ensures Issued(r.1) == Issued(supply) + {r.0}
  {
    var id := GuidText(supply.next);
    var after := IdSupply(supply.next + 1);
    assert id !in Issued(supply) by {
      forall k | 0 <= k < supply.next
        ensures GuidText(k) != id
      {
        GuidTextInjective(k, supply.next);
      }
    }
    assert Issued(after) == Issued(supply) + {id} by {
      forall s | s in Issued(after)
        ensures s in Issued(supply) + {id}
      {
        var k :| 0 <= k < after.next && s == GuidText(k);
        if k < supply.next {
          assert s in Issued(supply);
        }
      }
    }
    (id, after)
  }
}
