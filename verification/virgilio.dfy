/** The `Virgilio` analytics class over the 34 canti of the Inferno.

    A `Virgilio` object holds only the directory of the canto files and never
    changes it, so the model passes the directory's contents, a `Corpus`, to
    every operation instead of wrapping them in a class. Opening a file and
    decoding it are replaced by `FileLines`: the lines that the reading loop
    receives, each as Python yields it (with its line terminator). */
module Virgilio {
  import opened Stripping
  import opened Substrings

  /** `Virgilio.CANTI_QUANTITY` */
  const CantiQuantity: nat := 34

  /** Python's `string.punctuation`. */
  const Punctuation: string := "!\"#$%&'()*+,-./:;<=>?@[\\]^_`{|}~"

  /** `Virgilio.CHARS_TO_EXCLUDE`: the punctuation, a space, a newline, the
      guillemets U+00AB and U+00BB and the right single quotation mark U+2019. */
  const CharsToExclude: string := Punctuation + " \n\U{AB}\U{BB}\U{2019}"

  /** What opening `Canto_<n>.txt` gives: no file, a file read to its end, or
      a file whose reading raises an error after the given lines. */
  datatype CantoFile =
    | Missing
    | Present(lines: seq<string>)
    | Faulty(linesBeforeError: seq<string>)

  /** The canto files of the directory, by canto number; a number without an
      entry has no file. */
  type Corpus = map<int, CantoFile>

  /** `Virgilio.CantoNotFoundError` */
  datatype Error = CantoNotFoundError(message: string)

  const CantoNotFoundMessage: string := "canto_number must be between 1 and 34"

  datatype Result<T> = Ok(value: T) | Err(error: Error)

  datatype Option<T> = None | Some(value: T)

  /** The key/value pair `get_longest_canto` returns. */
  datatype LongestCanto = LongestCanto(cantoNumber: nat, cantoLen: nat)

  /** The two integers `get_hell_verse_mean_len` divides: the total length of
      the sanitized verses and the number of verses. */
  datatype MeanLen = MeanLen(totalLen: nat, verseCount: nat)

  predicate IsCantoNumber(n: int) {
    1 <= n <= CantiQuantity
  }

  /** The lines the reading loop of `read_canto_lines` appends before the file
      ends or fails; a missing file gives none. */
  function FileLines(corpus: Corpus, n: int): seq<string> {
    if n !in corpus then []
    else match corpus[n]
      case Missing => []
      case Present(lines) => lines
      case Faulty(lines) => lines
  }

  /** Membership in `CHARS_TO_EXCLUDE`, by code-point range: printable ASCII
      punctuation plus the five extra characters. */
  predicate IsExcluded(c: char) {
    '!' <= c <= '/' || ':' <= c <= '@' || '[' <= c <= '`' || '{' <= c <= '~' ||
    c == ' ' || c == '\n' || c == '\U{AB}' || c == '\U{BB}' || c == '\U{2019}'
  }

  /** The ranges describe exactly the characters of the string constant. */
  lemma {:induction false} IsExcludedMatchesConstant(c: char)
    ensures |Punctuation| == 32 && |CharsToExclude| == 37
    ensures IsExcluded(c) <==> c in CharsToExclude
  {
  }

  /** `verse.strip(Virgilio.CHARS_TO_EXCLUDE)` */
  function Sanitize(verse: string): (r: string)
    ensures |r| <= |verse|
    ensures r == [] || (!IsExcluded(r[0]) && !IsExcluded(r[|r| - 1]))
  {
    Strip(verse, IsExcluded)
  }

  /** A sanitized verse is a contiguous piece of the verse that neither starts
      nor ends with a character of `CHARS_TO_EXCLUDE`, and only such characters
      were cut from its ends. */
  lemma SanitizeShape(verse: string)
    ensures var r := Sanitize(verse);
      var n := LeadingCount(verse, IsExcluded);
      n + |r| <= |verse| && r == verse[n..n + |r|] &&
      (forall k :: 0 <= k < n ==> verse[k] in CharsToExclude) &&
      (forall k :: n + |r| <= k < |verse| ==> verse[k] in CharsToExclude) &&
      (r == [] || (r[0] !in CharsToExclude && r[|r| - 1] !in CharsToExclude))
  {
    var r := Sanitize(verse);
    var n := LeadingCount(verse, IsExcluded);
    StripShape(verse, IsExcluded);
    forall k | 0 <= k < n ensures verse[k] in CharsToExclude {
      IsExcludedMatchesConstant(verse[k]);
    }
    forall k | n + |r| <= k < |verse| ensures verse[k] in CharsToExclude {
      IsExcludedMatchesConstant(verse[k]);
    }
    if r != [] {
      IsExcludedMatchesConstant(r[0]);
      IsExcludedMatchesConstant(r[|r| - 1]);
    }
  }

  /** A sanitized verse is sanitized already. */
  lemma SanitizeIdempotent(verse: string)
    ensures Sanitize(Sanitize(verse)) == Sanitize(verse)
  {
    StripIdempotent(verse, IsExcluded);
  }

  // ---------------------------------------------------------------------------
  // read_canto_lines

  /** A line as `read_canto_lines` appends it. */
  function AsLoaded(line: string, stripLines: bool): string {
    if stripLines then Sanitize(line) else line
  }

  /** `read_canto_lines(canto_number, strip_lines, num_lines)`. The loop appends
      each line, stripped when asked, and stops as soon as the list holds
      `num_lines` lines, which can only happen for a positive limit. */
  method ReadCantoLines(corpus: Corpus, cantoNumber: int, stripLines: bool, numLines: Option<int>)
    returns (r: Result<seq<string>>)
    ensures r.Err? <==> !IsCantoNumber(cantoNumber)
    ensures r.Err? ==> r.error == CantoNotFoundError(CantoNotFoundMessage)
    ensures r.Ok? ==>
      |r.value| == if numLines.Some? && 0 < numLines.value <= |FileLines(corpus, cantoNumber)|
                   then numLines.value else |FileLines(corpus, cantoNumber)|
    ensures r.Ok? ==>
      forall i :: 0 <= i < |r.value| ==> r.value[i] == AsLoaded(FileLines(corpus, cantoNumber)[i], stripLines)
  {
    if cantoNumber < 1 || cantoNumber > CantiQuantity {
      return Err(CantoNotFoundError(CantoNotFoundMessage));
    }
    var lines := FileLines(corpus, cantoNumber);
    var cantoVerses: seq<string> := [];
    var i := 0;
    while i < |lines|
      invariant 0 <= i <= |lines|
      invariant |cantoVerses| == i
      invariant forall k :: 0 <= k < i ==> cantoVerses[k] == AsLoaded(lines[k], stripLines)
      invariant numLines.Some? && 0 < numLines.value ==> i < numLines.value
    {
      var verse := lines[i];
      cantoVerses := cantoVerses + [AsLoaded(verse, stripLines)];
      i := i + 1;
      if numLines == Some(|cantoVerses|) {
        break;
      }
    }
    return Ok(cantoVerses);
  }

  /** The verses `read_canto_lines(n)` returns with its default arguments. */
  function CantoVerses(corpus: Corpus, n: int): Result<seq<string>> {
    if IsCantoNumber(n) then Ok(FileLines(corpus, n))
    else Err(CantoNotFoundError(CantoNotFoundMessage))
  }

  /** With the default arguments the method and its functional view agree. */
  method ReadCanto(corpus: Corpus, n: int) returns (r: Result<seq<string>>)
    ensures r == CantoVerses(corpus, n)
  {
    r := ReadCantoLines(corpus, n, false, None);
    if r.Ok? {
      assert r.value == FileLines(corpus, n);
    }
  }

  // ---------------------------------------------------------------------------
  // count_verses, count_tercets, count_word, count_words

  /** `count_verses(n)` */
  function CountVerses(corpus: Corpus, n: int): (r: Result<nat>)
    ensures r.Err? <==> !IsCantoNumber(n)
    ensures r.Ok? ==> r.value == |FileLines(corpus, n)|
  {
    match CantoVerses(corpus, n)
    case Ok(verses) => Ok(|verses|)
    case Err(e) => Err(e)
  }

  /** `count_tercets(n)`: the whole tercets among the verses; one or two
      verses left over are not counted. */
  function CountTercets(corpus: Corpus, n: int): (r: Result<nat>)
    ensures r.Err? <==> !IsCantoNumber(n)
    ensures r.Ok? ==> 3 * r.value <= |FileLines(corpus, n)| < 3 * r.value + 3
  {
    match CountVerses(corpus, n)
    case Ok(verses) => Ok(verses / 3)
    case Err(e) => Err(e)
  }

  /** `count_word(n, word)`: `str.count` on the verses joined by spaces. */
  function CountWord(corpus: Corpus, n: int, word: string): (r: Result<nat>)
    ensures r.Err? <==> !IsCantoNumber(n)
    ensures r.Ok? ==> r.value == Count(Join(FileLines(corpus, n)), word)
  {
    match CantoVerses(corpus, n)
    case Ok(verses) => Ok(Count(Join(verses), word))
    case Err(e) => Err(e)
  }

  /** What `count_word` promises about its result: for a non-empty word, no
      more occurrences than fit side by side in the joined text, none exactly
      when the word is absent, and at least as many as the verses hold one by
      one; the empty word is counted once per position, as `str.count` does. */
  lemma CountWordBounds(corpus: Corpus, n: int, word: string)
    requires IsCantoNumber(n)
    ensures var joined := Join(FileLines(corpus, n));
      var c := CountWord(corpus, n, word).value;
      (|word| > 0 ==> c * |word| <= |joined|) &&
      (|word| > 0 ==> (c == 0 <==> !Contains(joined, word))) &&
      (|word| > 0 ==> CountEach(FileLines(corpus, n), word) <= c) &&
      (|word| == 0 ==> c == |joined| + 1)
  {
    var joined := Join(FileLines(corpus, n));
    if |word| > 0 {
      CountZeroIff(joined, word);
      JoinCountsEachVerse(FileLines(corpus, n), word);
    }
  }

  /** `count_words(n, words)` without the JSON file: each word of the list is
      counted, a repeated word simply counted again. The canto number is only
      checked through `count_word`, so an empty list never fails. */
  method CountWords(corpus: Corpus, n: int, words: seq<string>) returns (r: Result<map<string, nat>>)
    ensures r.Err? <==> |words| > 0 && !IsCantoNumber(n)
    ensures r.Ok? ==> r.value.Keys == set w | w in words
    ensures r.Ok? ==> forall w :: w in r.value ==> r.value[w] == Count(Join(FileLines(corpus, n)), w)
  {
    var wordsCounter: map<string, nat> := map[];
    for i := 0 to |words|
      invariant i > 0 ==> IsCantoNumber(n)
      invariant wordsCounter.Keys == set w | w in words[..i]
      invariant forall w :: w in wordsCounter ==> wordsCounter[w] == Count(Join(FileLines(corpus, n)), w)
    {
      var counted := CountWord(corpus, n, words[i]);
      if counted.Err? {
        return Err(counted.error);
      }
      wordsCounter := wordsCounter[words[i] := counted.value];
      assert words[..i + 1] == words[..i] + [words[i]];
    }
    assert words[..|words|] == words;
    return Ok(wordsCounter);
  }

  // ---------------------------------------------------------------------------
  // get_hell_verses, count_hell_verses, get_hell_verse_mean_len

  /** The verses of canti 1..k, canto after canto. */
  function Hell(corpus: Corpus, k: nat): seq<string> {
    if k == 0 then [] else Hell(corpus, k - 1) + FileLines(corpus, k)
  }

  /** The number of verses in canti 1..k, added canto by canto. */
  function TotalVerses(corpus: Corpus, k: nat): nat {
    if k == 0 then 0 else TotalVerses(corpus, k - 1) + |FileLines(corpus, k)|
  }

  /** Canto n sits in the concatenation right after the verses of the canti
      before it, so the verse order of every canto is kept. */
  lemma {:induction false} HellLayout(corpus: Corpus, k: nat, n: nat)
    requires 1 <= n <= k
    ensures |Hell(corpus, k)| == TotalVerses(corpus, k)
    ensures TotalVerses(corpus, n) <= TotalVerses(corpus, k)
    ensures Hell(corpus, k)[TotalVerses(corpus, n - 1)..TotalVerses(corpus, n)] == FileLines(corpus, n)
  {
    HellLength(corpus, k - 1);
    if n < k {
      HellLayout(corpus, k - 1, n);
      assert Hell(corpus, k)[..TotalVerses(corpus, k - 1)] == Hell(corpus, k - 1);
    } else {
      assert Hell(corpus, k)[TotalVerses(corpus, k - 1)..] == FileLines(corpus, k);
    }
  }

  lemma {:induction false} HellLength(corpus: Corpus, k: nat)
    ensures |Hell(corpus, k)| == TotalVerses(corpus, k)
  {
    if k > 0 {
      HellLength(corpus, k - 1);
    }
  }

  /** A verse is among the verses of canti 1..k exactly when one of those
      canti has it. */
  lemma {:induction false} HellHas(corpus: Corpus, k: nat, v: string)
    ensures v in Hell(corpus, k) <==> exists n :: 1 <= n <= k && v in FileLines(corpus, n)
  {
    if k > 0 {
      HellHas(corpus, k - 1, v);
      if v in FileLines(corpus, k) {
        assert v in Hell(corpus, k);
      }
    }
  }

  /** `get_hell_verses()`: every canto from 1 to 34, verse by verse. */
  method GetHellVerses(corpus: Corpus) returns (hellVerses: seq<string>)
    ensures hellVerses == Hell(corpus, CantiQuantity)
  {
    hellVerses := [];
    for i := 0 to CantiQuantity
      invariant hellVerses == Hell(corpus, i)
    {
      var cantoNumber := i + 1;
      var read := ReadCanto(corpus, cantoNumber);
      var cantoVerses := read.value;
      for j := 0 to |cantoVerses|
        invariant hellVerses == Hell(corpus, i) + cantoVerses[..j]
      {
        hellVerses := hellVerses + [cantoVerses[j]];
        assert cantoVerses[..j + 1] == cantoVerses[..j] + [cantoVerses[j]];
      }
      assert cantoVerses[..|cantoVerses|] == cantoVerses;
    }
  }

  /** `count_hell_verses()`: the verse counts of the 34 canti added up. */
  function CountHellVerses(corpus: Corpus): (r: nat)
    ensures r == TotalVerses(corpus, CantiQuantity)
  {
    HellLength(corpus, CantiQuantity);
    |Hell(corpus, CantiQuantity)|
  }

  /** The sanitized lengths of the verses, added up. */
  function SanitizedLength(verses: seq<string>): nat {
    if |verses| == 0 then 0
    else SanitizedLength(verses[..|verses| - 1]) + |Sanitize(verses[|verses| - 1])|
  }

  /** The raw lengths of the verses, added up. */
  function RawLength(verses: seq<string>): nat {
    if |verses| == 0 then 0
    else RawLength(verses[..|verses| - 1]) + |verses[|verses| - 1]|
  }

  /** Adding one more verse adds its sanitized length. */
  lemma SanitizedLengthStep(verses: seq<string>, i: nat)
    requires i < |verses|
    ensures SanitizedLength(verses[..i + 1]) == SanitizedLength(verses[..i]) + |Sanitize(verses[i])|
  {
    assert verses[..i + 1][..i] == verses[..i];
  }

  /** Sanitizing never lengthens the verses. */
  lemma {:induction false} SanitizedNotLonger(verses: seq<string>)
    ensures SanitizedLength(verses) <= RawLength(verses)
  {
    if |verses| > 0 {
      SanitizedNotLonger(verses[..|verses| - 1]);
    }
  }

  /** `get_hell_verse_mean_len()` up to the float division: the total length of
      the sanitized verses and their number, or nothing when there are no
      verses to divide by. */
  method GetHellVerseMeanLen(corpus: Corpus) returns (r: Option<MeanLen>)
    ensures r.None? <==> TotalVerses(corpus, CantiQuantity) == 0
    ensures r.Some? ==> r.value.verseCount == TotalVerses(corpus, CantiQuantity)
    ensures r.Some? ==> r.value.totalLen == SanitizedLength(Hell(corpus, CantiQuantity))
    ensures r.Some? ==> r.value.totalLen <= RawLength(Hell(corpus, CantiQuantity))
  {
    var hellVerses := GetHellVerses(corpus);
    HellLength(corpus, CantiQuantity);
    SanitizedNotLonger(hellVerses);
    var hellVersesLen := 0;
    for i := 0 to |hellVerses|
      invariant hellVersesLen == SanitizedLength(hellVerses[..i])
    {
      var sanitizedVerse := Sanitize(hellVerses[i]);
      SanitizedLengthStep(hellVerses, i);
      hellVersesLen := hellVersesLen + |sanitizedVerse|;
    }
    assert hellVerses[..|hellVerses|] == hellVerses;
    if |hellVerses| == 0 {
      return None;
    }
    return Some(MeanLen(hellVersesLen, |hellVerses|));
  }

  // ---------------------------------------------------------------------------
  // get_longest_canto, get_longest_verse, get_verse_with_word

  /** `get_longest_canto()`: the most verses any canto has, and the first canto
      that has them; the sentinel canto 0 of length 0 when every canto is
      empty. */
  method GetLongestCanto(corpus: Corpus) returns (longest: LongestCanto)
    ensures forall n :: IsCantoNumber(n) ==> |FileLines(corpus, n)| <= longest.cantoLen
    ensures longest.cantoLen == 0 ==> longest.cantoNumber == 0
    ensures longest.cantoLen > 0 ==>
      IsCantoNumber(longest.cantoNumber) && |FileLines(corpus, longest.cantoNumber)| == longest.cantoLen
    ensures forall n :: 1 <= n < longest.cantoNumber ==> |FileLines(corpus, n)| < longest.cantoLen
  {
    longest := LongestCanto(0, 0);
    for i := 0 to CantiQuantity
      invariant forall n :: 1 <= n <= i ==> |FileLines(corpus, n)| <= longest.cantoLen
      invariant longest.cantoLen == 0 ==> longest.cantoNumber == 0
      invariant longest.cantoLen > 0 ==>
        1 <= longest.cantoNumber <= i && |FileLines(corpus, longest.cantoNumber)| == longest.cantoLen
      invariant forall n :: 1 <= n < longest.cantoNumber ==> |FileLines(corpus, n)| < longest.cantoLen
    {
      var cantoNumber := i + 1;
      var read := ReadCanto(corpus, cantoNumber);
      var cantoVerses := read.value;
      if |cantoVerses| <= longest.cantoLen {
        continue;
      }
      longest := longest.(cantoNumber := cantoNumber, cantoLen := |cantoVerses|);
    }
  }

  /** `get_longest_verse(n)`: the first verse of greatest raw length, or the
      empty string when the canto has no verse longer than that. */
  method GetLongestVerse(corpus: Corpus, n: int) returns (r: Result<string>)
    ensures r.Err? <==> !IsCantoNumber(n)
    ensures r.Ok? ==> forall i :: 0 <= i < |FileLines(corpus, n)| ==> |FileLines(corpus, n)[i]| <= |r.value|
    ensures r.Ok? && r.value != "" ==>
      exists i :: 0 <= i < |FileLines(corpus, n)| && FileLines(corpus, n)[i] == r.value &&
        forall j :: 0 <= j < i ==> |FileLines(corpus, n)[j]| < |r.value|
  {
    var read := ReadCanto(corpus, n);
    if read.Err? {
      return Err(read.error);
    }
    var cantoVerses := read.value;
    var verseLen := 0;
    var longestVerse := "";
    ghost var at := 0;
    for i := 0 to |cantoVerses|
      invariant verseLen == |longestVerse|
      invariant forall k :: 0 <= k < i ==> |cantoVerses[k]| <= verseLen
      invariant longestVerse != "" ==>
        0 <= at < i && cantoVerses[at] == longestVerse && forall j :: 0 <= j < at ==> |cantoVerses[j]| < verseLen
    {
      var verse := cantoVerses[i];
      if |verse| <= verseLen {
        continue;
      }
      verseLen := |verse|;
      longestVerse := verse;
      at := i;
    }
    return Ok(longestVerse);
  }

  /** The verses that contain the word, in their original order. */
  function VersesContaining(verses: seq<string>, word: string): (r: seq<string>)
    ensures forall v :: v in r ==> v in verses && Contains(v, word)
    ensures forall i :: 0 <= i < |verses| && Contains(verses[i], word) ==> verses[i] in r
  {
    if |verses| == 0 then []
    else
      var last := verses[|verses| - 1];
      VersesContaining(verses[..|verses| - 1], word) + if Contains(last, word) then [last] else []
  }

  /** `get_verse_with_word(n, word)` */
  method GetVerseWithWord(corpus: Corpus, n: int, word: string) returns (r: Result<seq<string>>)
    ensures r.Err? <==> !IsCantoNumber(n)
    ensures r.Ok? ==> r.value == VersesContaining(FileLines(corpus, n), word)
  {
    var read := ReadCanto(corpus, n);
    if read.Err? {
      return Err(read.error);
    }
    var cantoVerses := read.value;
    var versesWithWord := [];
    for i := 0 to |cantoVerses|
      invariant versesWithWord == VersesContaining(cantoVerses[..i], word)
    {
      var verse := cantoVerses[i];
      assert cantoVerses[..i + 1][..i] == cantoVerses[..i];
      if !Contains(verse, word) {
        continue;
      }
      versesWithWord := versesWithWord + [verse];
    }
    assert cantoVerses[..|cantoVerses|] == cantoVerses;
    return Ok(versesWithWord);
  }

  /** a is obtained from b by deleting elements, keeping the order of the rest. */
  predicate IsSubsequence(a: seq<string>, b: seq<string>) {
    if |a| == 0 then true
    else if |b| == 0 then false
    else if a[|a| - 1] == b[|b| - 1] then IsSubsequence(a[..|a| - 1], b[..|b| - 1])
    else IsSubsequence(a, b[..|b| - 1])
  }

  /** The verses with the word are a subsequence of the canto. */
  lemma {:induction false} VersesContainingIsSubsequence(verses: seq<string>, word: string)
    ensures IsSubsequence(VersesContaining(verses, word), verses)
  {
    if |verses| > 0 {
      var init := verses[..|verses| - 1];
      var last := verses[|verses| - 1];
      var r := VersesContaining(verses, word);
      VersesContainingIsSubsequence(init, word);
      assert init + [last] == verses;
      if Contains(last, word) {
        assert r[..|r| - 1] == VersesContaining(init, word);
      } else {
        assert r == VersesContaining(init, word);
        SubsequenceExtend(r, init, last);
      }
    }
  }

  /** Appending to the longer sequence keeps a subsequence one. */
  lemma {:induction false} SubsequenceExtend(a: seq<string>, b: seq<string>, x: string)
    requires IsSubsequence(a, b)
    ensures IsSubsequence(a, b + [x])
    decreases |b|, 1
  {
    assert (b + [x])[..|b|] == b;
    if |a| > 0 && a[|a| - 1] == x {
      SubsequenceDropLast(a, b);
    }
  }

  /** Dropping the last element of a subsequence keeps it a subsequence. */
  lemma {:induction false} SubsequenceDropLast(a: seq<string>, b: seq<string>)
    requires |a| > 0 && IsSubsequence(a, b)
    ensures IsSubsequence(a[..|a| - 1], b)
    decreases |b|, 0
  {
    var b' := b[..|b| - 1];
    assert b' + [b[|b| - 1]] == b;
    if a[|a| - 1] != b[|b| - 1] {
      SubsequenceDropLast(a, b');
    }
    SubsequenceExtend(a[..|a| - 1], b', b[|b| - 1]);
  }

  /** Verses that all contain the word are all kept. */
  lemma {:induction false} VersesContainingKeepsAll(verses: seq<string>, word: string)
    requires forall i :: 0 <= i < |verses| ==> Contains(verses[i], word)
    ensures VersesContaining(verses, word) == verses
  {
    if |verses| > 0 {
      var init := verses[..|verses| - 1];
      var last := verses[|verses| - 1];
      assert forall i :: 0 <= i < |init| ==> init[i] == verses[i];
      VersesContainingKeepsAll(init, word);
      assert Contains(last, word);
      assert VersesContaining(verses, word) == VersesContaining(init, word) + [last];
      assert init + [last] == verses;
    }
  }

  /** Filtering the filtered verses again keeps all of them. */
  lemma VersesContainingIdempotent(verses: seq<string>, word: string)
    ensures VersesContaining(VersesContaining(verses, word), word) == VersesContaining(verses, word)
  {
    var r := VersesContaining(verses, word);
    assert forall i :: 0 <= i < |r| ==> r[i] in r;
    VersesContainingKeepsAll(r, word);
  }

  /** When some verse of a canto contains the word, `count_word` finds it at
      least once. */
  lemma VerseWithWordIsCounted(corpus: Corpus, n: int, word: string)
    requires IsCantoNumber(n)
    requires |VersesContaining(FileLines(corpus, n), word)| > 0
    ensures CountWord(corpus, n, word).value >= 1
  {
    var lines := FileLines(corpus, n);
    var v := VersesContaining(lines, word)[0];
    assert v in VersesContaining(lines, word);
    var i :| 0 <= i < |lines| && lines[i] == v;
    ContainsInJoin(lines, i, word);
    if |word| > 0 {
      CountZeroIff(Join(lines), word);
    }
  }
}
