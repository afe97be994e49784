/**
 * The dummy payloads the benchmark seeds: `Buffer.alloc(n).toString('base64')`
 * for `n` zero bytes, as the 100 KB DynamoDB row (`bench/seed-data.mjs`,
 * `bench/index.mjs`) and, cut to one megabyte of characters, as the S3
 * object body (`bench/seed-data.mjs`).
 */
module Fixtures {
  import opened Js

  const KB: nat := 1024
  const MB: nat := KB * KB
  const HundredKB: nat := 100 * KB

  /** `n` copies of `c`. */
  function Repeat(c: char, n: nat): (s: string)
    ensures |s| == n
    ensures forall i :: 0 <= i < n ==> s[i] == c
  {
    seq(n, _ => c)
  }

  /**
   * The base64 text of `n` zero bytes: every whole group of three zero
   * bytes is `AAAA`; a last group of one byte is `AA==` and one of two
   * bytes `AAA=`.
   */
  function ZerosBase64(n: nat): string {
    Repeat('A', 4 * (n / 3)) + (if n % 3 == 1 then "AA==" else if n % 3 == 2 then "AAA=" else "")
  }

  /** How many `=` pad the end of a base64 text (at most two). */
  function Padding(s: string): (p: nat)
    ensures p <= 2 && p <= |s|
  {
    if |s| >= 2 && s[|s| - 1] == '=' && s[|s| - 2] == '=' then 2
    else if |s| >= 1 && s[|s| - 1] == '=' then 1
    else 0
  }

  /** The number of bytes a padded base64 text decodes to. */
  function DecodedLength(s: string): int {
    3 * (|s| / 4) - Padding(s)
  }

  /**
   * The encoding of `n` zero bytes is well-formed base64 (a whole number of
   * four-character groups of the alphabet and padding) that decodes to `n`
   * bytes, and it is a third longer than `n`, rounded up to a group.
   */
  lemma ZerosBase64Shape(n: nat)
    ensures var s := ZerosBase64(n);
      && |s| == 4 * ((n + 2) / 3)
      && |s| % 4 == 0
      && DecodedLength(s) == n
      && forall i :: 0 <= i < |s| ==> s[i] == 'A' || (s[i] == '=' && i >= |s| - 2)
  {
    var q := n / 3;
    var body := Repeat('A', 4 * q);
    if n % 3 == 1 {
      PaddedShape(n, body, "AA==", 2);
    } else if n % 3 == 2 {
      PaddedShape(n, body, "AAA=", 1);
    } else {
      var s := ZerosBase64(n);
      assert s == body;
      assert (n + 2) / 3 == q;
      assert q > 0 ==> s[|s| - 1] == 'A';
    }
  }

  /** The shape of the encoding when the last group is padded with `pad` signs. */
  lemma PaddedShape(n: nat, body: string, tail: string, pad: nat)
    requires n % 3 != 0 && body == Repeat('A', 4 * (n / 3))
    requires tail == (if n % 3 == 1 then "AA==" else "AAA=") && pad == 3 - n % 3
    ensures var s := ZerosBase64(n);
      && |s| == 4 * ((n + 2) / 3)
      && |s| % 4 == 0
      && DecodedLength(s) == n
      && forall i :: 0 <= i < |s| ==> s[i] == 'A' || (s[i] == '=' && i >= |s| - 2)
  {
    var q := n / 3;
    var s := ZerosBase64(n);
    assert s == body + tail;
    assert |s| == 4 * q + 4;
    assert (n + 2) / 3 == q + 1;
    assert |s| / 4 == q + 1;
    assert s[|s| - 1] == '=' && (s[|s| - 2] == '=' <==> pad == 2);
    assert Padding(s) == pad;
    forall i | 0 <= i < |s|
      ensures s[i] == 'A' || (s[i] == '=' && i >= |s| - 2)
    {
      if i < 4 * q {
        assert s[i] == body[i];
      } else {
        assert s[i] == tail[i - 4 * q];
      }
    }
  }

  /**
   * The DynamoDB row data: the base64 of 100 KB of zeros, which is 136536
   * characters, more than the 102400 bytes it is meant to weigh.
   */
  const RowData: string := ZerosBase64(HundredKB)

  lemma RowDataIsInflated()
    ensures |RowData| == 136536 && |RowData| > HundredKB
    ensures DecodedLength(RowData) == HundredKB
  {
    ZerosBase64Shape(HundredKB);
  }

  /** `{ ...DynamoDB.Key, data }`: the dummy item, keyed `id = 'data'`. */
  const RowItem: map<string, Value> := map["id" := Str("data"), "data" := Str(RowData)]

  /** The S3 body: the base64 of one megabyte of zeros, cut to its first megabyte of characters. */
  function ObjectBody(): (body: string)
    ensures |body| == MB
    ensures forall i :: 0 <= i < |body| ==> body[i] == 'A'
  {
    ZerosBase64Shape(MB);
    ZerosBase64(MB)[..MB]
  }
}
