/**
 The pure part of scripts/process_audio.py: how a file id is derived from the
 input path, and the fixed formats that turn (environment, file id) into the
 storage keys, the media URI and the transcription job name.
 */
module Naming {

  import opened Wrappers

  /** The extension the script strips (and re-appends) everywhere. */
  const Mp3: string := ".mp3"

  // ---------------------------------------------------------------------------
  // File id: mp3_file.split('/')[-1].replace('.mp3', '')
  // ---------------------------------------------------------------------------

  /** The last '/'-separated segment of `s`, i.e. Python's `s.split('/')[-1]`:
      the longest suffix of `s` that holds no '/'. */
  function LastSegment(s: string): (r: string)
    ensures '/' !in r && |r| <= |s|
    decreases |s|
  {
    if s == [] then []
    else if s[|s| - 1] == '/' then []
    else LastSegment(s[..|s| - 1]) + [s[|s| - 1]]
  }

  /** LastSegment is the longest suffix free of '/': it ends `s`, and it is either
      all of `s` or preceded by a '/'. */
  lemma {:induction false} LastSegmentIsFinalPart(s: string)
    ensures LastSegment(s) == s[|s| - |LastSegment(s)|..]
    ensures |LastSegment(s)| == |s| || s[|s| - |LastSegment(s)| - 1] == '/'
    decreases |s|
  {
    if s != [] && s[|s| - 1] != '/' {
      var init, c := s[..|s| - 1], s[|s| - 1];
      var r, ri := LastSegment(s), LastSegment(init);
      LastSegmentIsFinalPart(init);
      assert r == ri + [c];
      assert s[|s| - |r|..] == init[|init| - |ri|..] + [c];
      assert |r| < |s| ==> s[|s| - |r| - 1] == init[|init| - |ri| - 1];
    }
  }

  /** Python's `s.replace('.mp3', '')`: scans left to right and drops every
      non-overlapping occurrence of ".mp3", wherever it stands in `s`. */
  function RemoveMp3(s: string): (r: string)
    ensures |r| <= |s| && (|s| - |r|) % |Mp3| == 0
    ensures forall c :: c in r ==> c in s
    decreases |s|
  {
    if |s| < |Mp3| then s
    else if s[..|Mp3|] == Mp3 then RemoveMp3(s[|Mp3|..])
    else [s[0]] + RemoveMp3(s[1..])
  }

  /** The file id the script derives from an input path. */
  function FileId(path: string): (id: string)
    ensures '/' !in id
    ensures |id| <= |path|
  {
    RemoveMp3(LastSegment(path))
  }

  /** An occurrence of ".mp3" starts at index `i` of `s`. */
  predicate Mp3At(s: string, i: nat) {
    i + |Mp3| <= |s| && s[i..i + |Mp3|] == Mp3
  }

  /** `s` holds no occurrence of ".mp3". */
  predicate NoMp3(s: string) {
    forall i: nat :: i < |s| ==> !Mp3At(s, i)
  }

  /** Dropping the first character keeps a string free of ".mp3". */
  lemma NoMp3Tail(s: string)
    requires s != [] && NoMp3(s)
    ensures NoMp3(s[1..])
  {
    forall i: nat | i < |s[1..]| ensures !Mp3At(s[1..], i) {
      if i + |Mp3| <= |s[1..]| {
        assert s[1..][i..i + |Mp3|] == s[i + 1..i + 1 + |Mp3|];
        assert !Mp3At(s, i + 1);
      }
    }
  }

  /** A string without ".mp3" is left as it is. */
  lemma {:induction false} RemoveMp3Unchanged(s: string)
    requires NoMp3(s)
    ensures RemoveMp3(s) == s
    decreases |s|
  {
    if |s| >= |Mp3| {
      assert !Mp3At(s, 0);
      NoMp3Tail(s);
      RemoveMp3Unchanged(s[1..]);
      assert [s[0]] + s[1..] == s;
    }
  }

  /** The leftmost ".mp3" is dropped and the scan resumes right after it: when
      `a` holds no ".mp3", the first one in `a + ".mp3" + b` is the one after `a`. */
  lemma {:induction false} RemoveMp3After(a: string, b: string)
    requires NoMp3(a)
    ensures RemoveMp3(a + Mp3 + b) == a + RemoveMp3(b)
    decreases |a|
  {
    var s := a + Mp3 + b;
    if a == [] {
      assert s[..|Mp3|] == Mp3;
      assert s[|Mp3|..] == b;
    } else {
      if |a| >= |Mp3| {
        assert !Mp3At(a, 0);
        assert s[..|Mp3|] == a[0..|Mp3|];
      } else {
        assert s[..|Mp3|][|a|] == '.' != Mp3[|a|];
      }
      NoMp3Tail(a);
      assert s[1..] == a[1..] + Mp3 + b;
      RemoveMp3After(a[1..], b);
      assert [a[0]] + a[1..] == a;
    }
  }

  /** The last segment after a '/' is whatever follows the final '/'. */
  lemma {:induction false} LastSegmentAfterSlash(dir: string, name: string)
    requires '/' !in name
    ensures LastSegment(dir + "/" + name) == name
    decreases |name|
  {
    var s := dir + "/" + name;
    if name != [] {
      var init := name[..|name| - 1];
      assert s[..|s| - 1] == dir + "/" + init;
      LastSegmentAfterSlash(dir, init);
      assert init + [name[|name| - 1]] == name;
    }
  }

  /** The id of a discovered input `audio_inputs/<stem>.mp3` is `<stem>` whenever the
      stem holds no '/' and no ".mp3" (dots are fine: `v1.2.mp3` gives `v1.2`). */
  lemma InputPathId(stem: string)
    requires '/' !in stem && NoMp3(stem)
    ensures FileId("audio_inputs/" + stem + Mp3) == stem
  {
    assert "audio_inputs/" + stem + Mp3 == "audio_inputs" + "/" + (stem + Mp3);
    assert '/' !in stem + Mp3;
    LastSegmentAfterSlash("audio_inputs", stem + Mp3);
    RemoveMp3After(stem, []);
    assert stem + Mp3 + [] == stem + Mp3;
  }

  lemma DemoId()
    ensures FileId("audio_inputs/demo.mp3") == "demo"
  {
    var stem := "demo";
    assert "audio_inputs/" + stem + Mp3 == "audio_inputs/demo.mp3";
    assert !Mp3At(stem, 0) by { assert stem[0..|Mp3|][0] == 'd'; }
    InputPathId(stem);
  }

  /** Dots in the stem stay: only ".mp3" is removed. */
  lemma DottedStemId(input: string)
    requires input == "audio_inputs/v1.2.mp3"
    ensures FileId(input) == "v1.2"
  {
    var stem := "v1.2";
    assert "audio_inputs/" + stem + Mp3 == input;
    assert !Mp3At(stem, 0) by { assert stem[0..|Mp3|][0] == 'v'; }
    InputPathId(stem);
  }

  lemma InnerMp3Removed(name: string)
    requires name == "a.mp3b.mp3"
    ensures RemoveMp3(name) == "ab"
  {
    assert name == "a" + Mp3 + ("b" + Mp3);
    RemoveMp3After("a", "b" + Mp3);
    RemoveMp3After("b", []);
    assert "b" + Mp3 + [] == "b" + Mp3;
  }

  /** ".mp3" is removed wherever it occurs, not only at the end, so two distinct
      inputs of the same directory can share one id (and so every storage key). */
  lemma InnerMp3Collides(p: string, q: string)
    requires p == "audio_inputs/a.mp3b.mp3" && q == "audio_inputs/ab.mp3"
    ensures p != q && FileId(p) == FileId(q) == "ab"
  {
    InputPathId("ab");
    assert "audio_inputs/" + "ab" + Mp3 == q;
    var name := "a.mp3b.mp3";
    assert '/' !in name;
    LastSegmentAfterSlash("audio_inputs", name);
    assert "audio_inputs" + "/" + name == p;
    InnerMp3Removed(name);
    assert |p| != |q|;
  }

  // ---------------------------------------------------------------------------
  // Storage keys and the media URI (one bucket, keys relative to it)
  // ---------------------------------------------------------------------------

  /** Where the input audio is uploaded (line 28) and later deleted (line 93). */
  function TempKey(id: string): string {
    "temp/" + id + Mp3
  }

  /** Where the transcript text is stored (line 58). */
  function TranscriptKey(env: string, id: string): string {
    env + "/transcripts/" + id + ".txt"
  }

  /** Where the Spanish translation is stored (line 73). */
  function TranslationKey(env: string, id: string): string {
    env + "/translations/" + id + "_es.txt"
  }

  /** Where the synthesized Spanish audio is uploaded (line 88). */
  function AudioKey(env: string, id: string): string {
    env + "/audio_outputs/" + id + "_es.mp3"
  }

  /** The media URI handed to the transcription job, written out as on line 35. */
  function MediaUri(bucket: string, id: string): string {
    "s3://" + bucket + "/temp/" + id + Mp3
  }

  /** The object key an `s3://<bucket>/<key>` URI names within `bucket`, if any. */
  function ObjectKeyOf(bucket: string, uri: string): (key: Option<string>)
    ensures key.Some? <==> "s3://" + bucket + "/" <= uri
    ensures key.Some? ==> uri == "s3://" + bucket + "/" + key.value
  {
    var prefix := "s3://" + bucket + "/";
    if prefix <= uri then
      assert uri == prefix + uri[|prefix|..];
      Some(uri[|prefix|..])
    else None
  }

  /** The transcription job reads exactly the object uploaded at ingest. */
  lemma MediaUriNamesTempKey(bucket: string, id: string)
    ensures ObjectKeyOf(bucket, MediaUri(bucket, id)) == Some(TempKey(id))
  {
    var prefix := "s3://" + bucket + "/";
    assert MediaUri(bucket, id) == prefix + TempKey(id);
  }

  /** In a temporary key built from an id without '/', the only '/' is the one
      after "temp". */
  lemma TempKeySlash(id: string)
    requires '/' !in id
    ensures forall i :: 0 <= i < |TempKey(id)| && TempKey(id)[i] == '/' ==> i == 4
  {
    var k := TempKey(id);
  }

  /** The four keys of a file are pairwise distinct, and no key of one kind can
      coincide with a key of another kind for any other file id either. */
  lemma KeysOfDifferentKindsDiffer(env: string, x: string, y: string)
    requires '/' !in x
    ensures TempKey(x) != TranscriptKey(env, y)
    ensures TempKey(x) != TranslationKey(env, y)
    ensures TempKey(x) != AudioKey(env, y)
    ensures TranscriptKey(env, x) != TranslationKey(env, y)
    ensures TranscriptKey(env, x) != AudioKey(env, y)
    ensures TranslationKey(env, x) != AudioKey(env, y)
  {
    var n := |env|;
    var t, l, a := TranscriptKey(env, y), TranslationKey(env, y), AudioKey(env, y);
    assert t[n] == l[n] == a[n] == '/';
    assert t[n + 12] == '/' && l[n + 13] == '/' && a[n + 14] == '/';
    TempKeySlash(x);
    assert TranscriptKey(env, x)[n + 6] == 'c' && l[n + 6] == 'l';
    assert TranscriptKey(env, x)[n + 1] == 't' && a[n + 1] == 'a';
    assert TranslationKey(env, x)[n + 1] == 't';
  }

  /** Within one kind, the key determines the file id: distinct ids never share
      a key. */
  lemma KeysDetermineId(env: string, x: string, y: string)
    ensures TempKey(x) == TempKey(y) ==> x == y
    ensures TranscriptKey(env, x) == TranscriptKey(env, y) ==> x == y
    ensures TranslationKey(env, x) == TranslationKey(env, y) ==> x == y
    ensures AudioKey(env, x) == AudioKey(env, y) ==> x == y
  {
    var n := |env|;
    if TempKey(x) == TempKey(y) {
      assert x == TempKey(x)[5..5 + |x|];
    }
    if TranscriptKey(env, x) == TranscriptKey(env, y) {
      assert x == TranscriptKey(env, x)[n + 13..n + 13 + |x|];
    }
    if TranslationKey(env, x) == TranslationKey(env, y) {
      assert x == TranslationKey(env, x)[n + 14..n + 14 + |x|];
    }
    if AudioKey(env, x) == AudioKey(env, y) {
      assert x == AudioKey(env, x)[n + 15..n + 15 + |x|];
    }
  }

  // ---------------------------------------------------------------------------
  // Job name: f"job-{filename}-{int(time.time())}"
  // ---------------------------------------------------------------------------

  predicate IsDigits(s: string) {
    forall i :: 0 <= i < |s| ==> '0' <= s[i] <= '9'
  }

  /** The character of decimal digit `d`. */
  function DigitChar(d: nat): char
    requires d < 10
  {
    ('0' as int + d) as char
  }

  /** Python's `str(n)` for a natural number: decimal digits without leading zeros. */
  function Decimal(n: nat): (s: string)
    ensures |s| >= 1 && IsDigits(s)
    ensures |s| > 1 ==> s[0] != '0'
    decreases n
  {
    if n < 10 then [DigitChar(n)] else Decimal(n / 10) + [DigitChar(n % 10)]
  }

  /** The number a string of decimal digits denotes. */
  function DigitsValue(s: string): nat
    requires IsDigits(s)
  {
    if s == [] then 0
    else DigitsValue(s[..|s| - 1]) * 10 + (s[|s| - 1] as int - '0' as int)
  }

  lemma {:induction false} DecimalRoundTrip(n: nat)
    ensures DigitsValue(Decimal(n)) == n
    decreases n
  {
    if n >= 10 {
      var s := Decimal(n);
      assert s[..|s| - 1] == Decimal(n / 10);
      DecimalRoundTrip(n / 10);
    }
  }

  /** The transcription job name for a file id and a wall-clock reading (seconds). */
  function JobName(id: string, seconds: nat): string {
    "job-" + id + "-" + Decimal(seconds)
  }

  /** In `a-d` with no '-' in `d`, the last '-' stands right after `a`. */
  lemma LastDash(a: string, d: string)
    requires '-' !in d
    ensures (a + "-" + d)[|a|] == '-'
    ensures forall i :: |a| < i < |a + "-" + d| ==> (a + "-" + d)[i] != '-'
  {
    var s := a + "-" + d;
    forall i | |a| < i < |s| ensures s[i] != '-' {
      assert s[i] == d[i - |a| - 1];
    }
  }

  /** Splitting at the last '-' is unambiguous when the tail holds no '-'. */
  lemma SplitAtLastDash(a: string, b: string, d: string, e: string)
    requires '-' !in d && '-' !in e
    requires a + "-" + d == b + "-" + e
    ensures a == b && d == e
  {
    var s := a + "-" + d;
    LastDash(a, d);
    LastDash(b, e);
    assert |a| == |b|;
    assert a == s[..|a|] && b == s[..|b|];
    assert d == s[|a| + 1..] && e == s[|b| + 1..];
  }

  /** Job names never collide: a job name determines both the file id and the
      clock reading it was made from. */
  lemma JobNameDeterminesIdAndTime(x: string, y: string, t: nat, u: nat)
    requires JobName(x, t) == JobName(y, u)
    ensures x == y && t == u
  {
    var d, e := Decimal(t), Decimal(u);
    assert JobName(x, t) == ("job-" + x) + "-" + d;
    assert JobName(y, u) == ("job-" + y) + "-" + e;
    SplitAtLastDash("job-" + x, "job-" + y, d, e);
    assert x == ("job-" + x)[4..];
    DecimalRoundTrip(t);
    DecimalRoundTrip(u);
  }
}
