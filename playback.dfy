/** The playlist records and the index arithmetic of script.js, as values:
    the records handleFiles appends (script.js:62-71), the steps of
    nextTrack/prevTrack (script.js:174-188) and of handleTrackEnd
    (script.js:284-304), and the one-element splice of removeTrack
    (script.js:210-218). The Player class in MediaPlayer is specified with
    these functions. */
module Playback {

  /** A playlist entry {url, name, type}; `type` is a Dafny keyword, so the
      MIME type is called `mime`. */
  datatype Track = Track(url: string, name: string, mime: string)

  /** What the file picker hands over for each file: its name and MIME type. */
  datatype File = File(name: string, mime: string)

  /** playTrack and handleTrackEnd send exactly this MIME type to the video popup. */
  predicate IsVideo(t: Track) {
    t.mime == "video/mp4"
  }

  /** The records handleFiles pushes, one per file in file order; urls[k] is
      the object URL created for files[k]. */
  function Records(files: seq<File>, urls: seq<string>): (r: seq<Track>)
    requires |urls| == |files|
    ensures |r| == |files|
    ensures forall k :: 0 <= k < |r| ==> r[k] == Track(urls[k], files[k].name, files[k].mime)
  {
    if files == [] then []
    else
      var n := |files| - 1;
      Records(files[..n], urls[..n]) + [Track(urls[n], files[n].name, files[n].mime)]
  }

  /** Records of a longer list extend the records of its prefix by one. */
  lemma RecordsSnoc(files: seq<File>, urls: seq<string>, i: nat)
    requires |urls| == |files| && i < |files|
    ensures Records(files[..i + 1], urls[..i + 1])
         == Records(files[..i], urls[..i]) + [Track(urls[i], files[i].name, files[i].mime)]
  {
  }

  /** The step of nextTrack: the successor, wrapping from the last track to
      the first. Even for a stale index (i >= n) the result is in range. */
  function NextIndex(i: nat, n: nat): (j: nat)
    requires n > 0
    ensures j < n
    ensures i < n ==> j == (if i + 1 < n then i + 1 else 0)
  {
    (i + 1) % n
  }

  /** The step of prevTrack: the predecessor, wrapping from the first track to
      the last. Even for a stale index (i >= n) the result is in range. */
  function PrevIndex(i: nat, n: nat): (j: nat)
    requires n > 0
    ensures j < n
    ensures i < n ==> j == (if i > 0 then i - 1 else n - 1)
  {
    (i - 1 + n) % n
  }

  lemma PrevAfterNext(i: nat, n: nat)
    requires i < n
    ensures PrevIndex(NextIndex(i, n), n) == i
  {
  }

  lemma NextAfterPrev(i: nat, n: nat)
    requires i < n
    ensures NextIndex(PrevIndex(i, n), n) == i
  {
  }

  /** The index after k successive nextTrack calls on a playlist of length n. */
  function Advance(i: nat, n: nat, k: nat): nat
    requires n > 0
  {
    if k == 0 then i else NextIndex(Advance(i, n, k - 1), n)
  }

  lemma {:induction false} AdvanceSplit(i: nat, n: nat, a: nat, b: nat)
    requires n > 0
    ensures Advance(i, n, a + b) == Advance(Advance(i, n, a), n, b)
    decreases b
  {
    if b > 0 {
      AdvanceSplit(i, n, a, b - 1);
    }
  }

  /** Below the end of the list, k steps move exactly k places. */
  lemma {:induction false} AdvanceWithinRange(i: nat, n: nat, k: nat)
    requires i + k < n
    ensures Advance(i, n, k) == i + k
    decreases k
  {
    if k > 0 {
      AdvanceWithinRange(i, n, k - 1);
    }
  }

  /** n successive nextTrack calls return to the starting track. */
  lemma {:induction false} AdvanceFullCycle(i: nat, n: nat)
    requires i < n
    ensures Advance(i, n, n) == i
  {
    var a := n - 1 - i;
    AdvanceWithinRange(i, n, a);
    assert Advance(i, n, a + 1) == 0;
    AdvanceSplit(i, n, a + 1, i);
    AdvanceWithinRange(0, n, i);
  }

  /** The list with the element at k taken out (splice(k, 1) for 0 <= k < |s|). */
  function Removed<T>(s: seq<T>, k: nat): (r: seq<T>)
    requires k < |s|
    ensures |r| == |s| - 1
    ensures forall j :: 0 <= j < k ==> r[j] == s[j]
    ensures forall j :: k <= j < |r| ==> r[j] == s[j + 1]
    ensures multiset(r) + multiset{s[k]} == multiset(s)
  {
    assert s == s[..k] + [s[k]] + s[k + 1..];
    s[..k] + s[k + 1..]
  }

  /** playlist.splice(start, 1) as removeTrack calls it: a start in range
      removes that element, a negative start counts back from the end and is
      clamped to the front, a start at or past the end removes nothing. */
  function SpliceOne<T>(s: seq<T>, start: int): (r: seq<T>)
    ensures 0 <= start < |s| ==> r == Removed(s, start)
    ensures start >= |s| ==> r == s
    ensures -|s| <= start < 0 ==> r == Removed(s, |s| + start)
    ensures start < -|s| && s != [] ==> r == Removed(s, 0)
    ensures |r| == if s == [] || start >= |s| then |s| else |s| - 1
    ensures multiset(r) <= multiset(s)
  {
    var n := |s|;
    var k := if start < 0 then (if n + start < 0 then 0 else n + start)
             else if start > n then n else start;
    if k < n then s[..k] + s[k + 1..] else s
  }
}
