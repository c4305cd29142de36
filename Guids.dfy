/**
 * Node identities and the attachment key of the process orchestrator.
 *
 * A node is identified by a Guid. The orchestrator remembers which
 * (output, input) pairs it has wired as strings of the form
 * "<output guid>:<input guid>", where each Guid is written in its default
 * textual form: 32 lower-case hexadecimal digits grouped 8-4-4-4-12 and
 * separated by hyphens. Because that form has a fixed width, the key is
 * injective, which is what lets the rest of the model read the list of keys
 * as a set of pairs.
 */
module Guids {

  /** One hexadecimal digit. */
  type Nibble = x: int | 0 <= x < 16

  /** A Guid, as its 32 hexadecimal digits in display order. */
  type Guid = s: seq<Nibble> | |s| == 32 witness seq(32, _ => 0)

  /** The lower-case hexadecimal character of a digit. */
  function HexDigit(n: Nibble): (c: char)
    ensures n < 10 ==> c == ('0' as int + n) as char
    ensures 10 <= n ==> c == ('a' as int + n - 10) as char
  {
    if n < 10 then ('0' as int + n) as char else ('a' as int + n - 10) as char
  }

  lemma HexDigitInjective(m: Nibble, n: Nibble)
    ensures HexDigit(m) == HexDigit(n) <==> m == n
  {
  }

  /** The digits of `s`, one character per digit. */
  function Hex(s: seq<Nibble>): (r: string)
    ensures |r| == |s|
    ensures forall i :: 0 <= i < |s| ==> r[i] == HexDigit(s[i])
  {
    if s == [] then "" else [HexDigit(s[0])] + Hex(s[1..])
  }

  /** The default textual form of a Guid: xxxxxxxx-xxxx-xxxx-xxxx-xxxxxxxxxxxx. */
  function Format(g: Guid): string
  {
    Hex(g[..8]) + "-" + Hex(g[8..12]) + "-" + Hex(g[12..16]) + "-" + Hex(g[16..20]) + "-" + Hex(g[20..])
  }

  /** Where digit `i` of a Guid stands in its textual form. */
  function Position(i: nat): nat
  {
    if i < 8 then i else if i < 12 then i + 1 else if i < 16 then i + 2 else if i < 20 then i + 3 else i + 4
  }

  /** The textual form has 36 characters; digit `i` sits at `Position(i)`, and hyphens at 8, 13, 18 and 23. */
  lemma FormatLayout(g: Guid)
    ensures |Format(g)| == 36
    ensures forall i :: 0 <= i < 32 ==> Position(i) < 36 && Format(g)[Position(i)] == HexDigit(g[i])
    ensures Format(g)[8] == Format(g)[13] == Format(g)[18] == Format(g)[23] == '-'
  {
    var s := Format(g);
    var a, b, c, d, e := Hex(g[..8]), Hex(g[8..12]), Hex(g[12..16]), Hex(g[16..20]), Hex(g[20..]);
    assert s == a + "-" + b + "-" + c + "-" + d + "-" + e;
    forall i | 0 <= i < 32
      ensures Position(i) < 36 && s[Position(i)] == HexDigit(g[i])
    {
      if i < 8 {
        assert s[i] == a[i];
      } else if i < 12 {
        assert s[i + 1] == b[i - 8];
      } else if i < 16 {
        assert s[i + 2] == c[i - 12];
      } else if i < 20 {
        assert s[i + 3] == d[i - 16];
      } else {
        assert s[i + 4] == e[i - 20];
      }
    }
  }

  /** Distinct Guids have distinct textual forms. */
  lemma FormatInjective(g: Guid, h: Guid)
    ensures Format(g) == Format(h) <==> g == h
  {
    if Format(g) == Format(h) {
      FormatLayout(g);
      FormatLayout(h);
      forall i | 0 <= i < 32
        ensures g[i] == h[i]
      {
        HexDigitInjective(g[i], h[i]);
      }
    }
  }

  /** The key under which the orchestrator records that `input` was wired to `output`. */
  function AttachmentKey(output: Guid, input: Guid): string
  {
    Format(output) + ":" + Format(input)
  }

  /** Two attachment keys are equal exactly when they name the same (output, input) pair. */
  lemma AttachmentKeyInjective(o1: Guid, i1: Guid, o2: Guid, i2: Guid)
    ensures AttachmentKey(o1, i1) == AttachmentKey(o2, i2) <==> o1 == o2 && i1 == i2
  {
    var k1, k2 := AttachmentKey(o1, i1), AttachmentKey(o2, i2);
    FormatLayout(o1);
    FormatLayout(o2);
    if k1 == k2 {
      assert Format(o1) == k1[..36] == k2[..36] == Format(o2);
      assert Format(i1) == k1[37..] == k2[37..] == Format(i2);
      FormatInjective(o1, o2);
      FormatInjective(i1, i2);
    }
  }
}
