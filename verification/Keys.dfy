/** Object-store keys: how the uploader, the transcoder and the readers name a video's objects. */
module Keys {
  import opened Decimal

  /** `original/%d/%s` */
  function OriginalKey(id: nat, name: string): string
  {
    "original/" + (Digits(id) + ("/" + name))
  }

  /** `processed/%d/%s` */
  function ProcessedKey(id: nat, name: string): string
  {
    "processed/" + (Digits(id) + ("/" + name))
  }

  /** What a reader builds from the identifier text it was given. */
  function ReaderKey(videoID: string, name: string): string
  {
    "processed/" + videoID + "/" + name
  }

  lemma {:induction false} SplitAtSlash(a: string, x: string, b: string, y: string)
    requires '/' !in a && '/' !in b
    requires a + ("/" + x) == b + ("/" + y)
    ensures a == b && x == y
  {
    var l, r := a + ("/" + x), b + ("/" + y);
    assert l[|a|] == '/' && r[|b|] == '/';
    assert forall i :: 0 <= i < |a| ==> l[i] == a[i] != '/';
    assert forall i :: 0 <= i < |b| ==> r[i] == b[i] != '/';
    assert |a| == |b|;
    assert a == l[..|a|] && b == r[..|b|];
    assert x == l[|a| + 1..] && y == r[|b| + 1..];
  }

  lemma DigitsHaveNoSlash(id: nat)
    ensures '/' !in Digits(id)
  {
    assert !IsDigit('/');
  }

  lemma NumberedTailInjective(i: nat, m: string, j: nat, n: string)
    requires Digits(i) + ("/" + m) == Digits(j) + ("/" + n)
    ensures i == j && m == n
  {
    DigitsHaveNoSlash(i);
    DigitsHaveNoSlash(j);
    SplitAtSlash(Digits(i), m, Digits(j), n);
    DigitsInjective(i, j);
  }

  lemma SameHead(h: string, x: string, y: string)
    requires h + x == h + y
    ensures x == y
  {
    assert x == (h + x)[|h|..] && y == (h + y)[|h|..];
  }

  /** Keys name one video and one file, for any file names at all, slashes included. */
  lemma KeysNeverCollide(i: nat, m: string, j: nat, n: string)
    ensures OriginalKey(i, m) == OriginalKey(j, n) ==> i == j && m == n
    ensures ProcessedKey(i, m) == ProcessedKey(j, n) ==> i == j && m == n
    ensures OriginalKey(i, m) != ProcessedKey(j, n)
  {
    var x, y := Digits(i) + ("/" + m), Digits(j) + ("/" + n);
    if OriginalKey(i, m) == OriginalKey(j, n) {
      SameHead("original/", x, y);
      NumberedTailInjective(i, m, j, n);
    }
    if ProcessedKey(i, m) == ProcessedKey(j, n) {
      SameHead("processed/", x, y);
      NumberedTailInjective(i, m, j, n);
    }
    assert OriginalKey(i, m)[0] == 'o' && ProcessedKey(j, n)[0] == 'p';
  }

  /** A reader finds the transcoder's object exactly when it was given the canonical decimal identifier. */
  lemma ReaderFindsProcessed(videoID: string, id: nat, name: string)
    ensures ReaderKey(videoID, name) == ProcessedKey(id, name) <==> videoID == Digits(id)
  {
    var l, r := ReaderKey(videoID, name), ProcessedKey(id, name);
    assert l[|"processed/"|..][..|videoID|] == videoID;
    assert r[|"processed/"|..][..|Digits(id)|] == Digits(id);
    if l == r {
      assert |videoID| == |Digits(id)|;
    }
    if videoID == Digits(id) {
      assert l == r;
    }
  }

  /** The keys as written, on an example. */
  lemma KeysAsWritten()
    ensures OriginalKey(42, "a/b.mp4") == "original/42/a/b.mp4"
    ensures ProcessedKey(42, "index.m3u8") == "processed/42/index.m3u8"
    ensures ReaderKey("042", "index0.ts") == "processed/042/index0.ts"
  {
    assert Digits(42) == "42";
  }
}
