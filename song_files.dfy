/**
 * The playlist as `loadSongFiles` builds it: the entries of the songs folder
 * that are regular files whose lower-cased name ends in ".wav", in the order
 * the folder listing gives them.
 */
module SongFiles {
  import opened Wrappers
  import JavaInt

  /** One entry of a folder listing: a `File` with its name and whether it is a regular file. */
  datatype Entry = Entry(name: string, isFile: bool)

  /**
   * The songs folder as the player finds it at start-up: whether the path
   * exists, whether it is a directory, and what `listFiles` returns
   * (`None` for Java's `null`).
   */
  datatype Folder = Folder(found: bool, isDirectory: bool, listing: Option<seq<Entry>>)

  /** The folder can be listed at all (the two guards of `loadSongFiles`). */
  predicate Listable(folder: Folder) {
    folder.found && folder.isDirectory && folder.listing.Some?
  }

  /** A Java `File[]` holds at most `Integer.MAX_VALUE` entries. */
  predicate FitsJavaArray(folder: Folder) {
    folder.listing.Some? ==> |folder.listing.value| <= JavaInt.MaxInt
  }

  const WavSuffix: string := ".wav"

  /** Lower-casing of one character; only 'A'..'Z' change. */
  function Lower(c: char): char {
    if 'A' <= c <= 'Z' then (c as int - 'A' as int + 'a' as int) as char else c
  }

  /** `String.toLowerCase`, character by character. */
  function LowerCase(s: string): (r: string)
    ensures |r| == |s|
    ensures forall k :: 0 <= k < |s| ==> r[k] == Lower(s[k])
  {
    seq(|s|, k requires 0 <= k < |s| => Lower(s[k]))
  }

  /** `String.endsWith`: the last characters of `s` are those of `suffix`, one by one. */
  predicate EndsWith(s: string, suffix: string)
    ensures EndsWith(s, suffix) <==>
      |suffix| <= |s| && forall k :: 0 <= k < |suffix| ==> s[|s| - |suffix| + k] == suffix[k]
  {
    |suffix| <= |s| && s[|s| - |suffix|..] == suffix
  }

  /**
   * The test of `loadSongFiles` on one entry: a regular file whose name ends
   * in '.', then w, a, v, each letter in either case.
   */
  predicate IsSong(e: Entry)
    ensures IsSong(e) <==> e.isFile && WavByCharacters(e.name)
  {
    WavNameByCharacters(e.name);
    e.isFile && EndsWith(LowerCase(e.name), WavSuffix)
  }

  predicate WavByCharacters(n: string) {
    var k := |n|;
    k >= 4 && n[k - 4] == '.' &&
    (n[k - 3] == 'w' || n[k - 3] == 'W') &&
    (n[k - 2] == 'a' || n[k - 2] == 'A') &&
    (n[k - 1] == 'v' || n[k - 1] == 'V')
  }

  /** The lower-cased suffix test, spelled out character by character. */
  lemma WavNameByCharacters(n: string)
    ensures EndsWith(LowerCase(n), WavSuffix) <==> WavByCharacters(n)
  {
    var k := |n|;
    var low := LowerCase(n);
    if k >= 4 {
      var tail := low[k - 4..];
      assert tail == [low[k - 4], low[k - 3], low[k - 2], low[k - 1]];
      assert WavSuffix == ['.', 'w', 'a', 'v'];
    }
  }

  /**
   * The entries of `entries` that pass `IsSong`, in their order; defined by
   * peeling off the last entry, as the loop of `loadSongFiles` appends.
   */
  function Filter(entries: seq<Entry>): (r: seq<Entry>)
    ensures |r| <= |entries|
    ensures forall e :: e in r ==> e in entries && IsSong(e)
  {
    if entries == [] then []
    else
      var last := entries[|entries| - 1];
      Filter(entries[..|entries| - 1]) + if IsSong(last) then [last] else []
  }

  /** The list `loadSongFiles` leaves in `songFiles`. */
  function SongList(folder: Folder): (r: seq<Entry>)
    ensures !Listable(folder) ==> r == []
    ensures forall e :: e in r ==> IsSong(e)
    ensures Listable(folder) ==> |r| <= |folder.listing.value|
  {
    if Listable(folder) then Filter(folder.listing.value)
    else []
  }

  /** An entry is kept exactly when it occurs in the listing and passes the test. */
  lemma {:induction false} FilterMembers(entries: seq<Entry>)
    ensures forall e :: e in Filter(entries) <==> e in entries && IsSong(e)
  {
    if entries != [] {
      var init := entries[..|entries| - 1];
      FilterMembers(init);
      assert entries == init + [entries[|entries| - 1]];
    }
  }

  /**
   * Each song keeps its multiplicity and every other entry is dropped: the
   * playlist holds the songs of the listing, each as often as listed.
   */
  lemma {:induction false} FilterCounts(entries: seq<Entry>, e: Entry)
    ensures multiset(Filter(entries))[e] == if IsSong(e) then multiset(entries)[e] else 0
  {
    if entries != [] {
      var init, last := entries[..|entries| - 1], entries[|entries| - 1];
      FilterCounts(init, e);
      assert entries == init + [last];
    }
  }

  /**
   * Filtering commutes with concatenation: songs of an earlier part of the
   * listing stay before songs of a later part, so listing order is kept.
   */
  lemma {:induction false} FilterConcat(a: seq<Entry>, b: seq<Entry>)
    ensures Filter(a + b) == Filter(a) + Filter(b)
  {
    if b == [] {
      assert a + b == a;
    } else {
      var init, last := b[..|b| - 1], b[|b| - 1];
      var tail := if IsSong(last) then [last] else [];
      FilterConcat(a, init);
      assert (a + b)[..|a + b| - 1] == a + init;
      assert (a + b)[|a + b| - 1] == last;
      assert Filter(a + b) == Filter(a + init) + tail;
      assert Filter(b) == Filter(init) + tail;
      assert Filter(a) + Filter(init) + tail == Filter(a) + (Filter(init) + tail);
    }
  }

  /** A listing made only of songs is kept whole; in particular filtering twice changes nothing. */
  lemma {:induction false} FilterKeepsSongs(entries: seq<Entry>)
    requires forall e :: e in entries ==> IsSong(e)
    ensures Filter(entries) == entries
  {
    if entries != [] {
      var init, last := entries[..|entries| - 1], entries[|entries| - 1];
      assert entries == init + [last];
      assert forall e :: e in init ==> e in entries;
      FilterKeepsSongs(init);
      assert IsSong(last);
      assert Filter(entries) == Filter(init) + [last];
    }
  }

  lemma FilterIdempotent(entries: seq<Entry>)
    ensures Filter(Filter(entries)) == Filter(entries)
  {
    FilterMembers(entries);
    FilterKeepsSongs(Filter(entries));
  }
}
