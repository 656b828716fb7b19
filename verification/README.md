# Virgilio in Dafny

A model of the `Virgilio` class of `virgilio.py`. The class is a small analytics layer over the 34 canti of Dante's Inferno. Each canto is a text file `Canto_<n>.txt` with one verse per line. The class loads a canto's verses and derives statistics from them: verse and tercet counts, word counts, all verses of the Inferno, the mean sanitized verse length, the longest canto, the longest verse, and the verses containing a word.

The project has three modules.

- `Stripping` (`strip.dfy`) models Python's `str.strip(chars)` for a set of characters given by a membership test. It proves the shape of the result, that the result is uniquely determined, and that stripping twice is the same as stripping once.
- `Substrings` (`substrings.dfy`) models `w in s`, `s.count(w)` and `" ".join(verses)`. It proves that `count` finds the largest possible number of non-overlapping occurrences. Several consequences follow from that.
- `Virgilio` (`virgilio.dfy`) models the class itself.

A `Virgilio` object's only state is its directory, which never changes. So the model gives every operation the directory's contents as a `Corpus`: a map from canto number to a `CantoFile`. The file is `Missing` (`FileNotFoundError`), `Present(lines)`, or `Faulty(linesBeforeError)`. `Faulty` is a file whose reading raises some other exception after delivering those lines. `read_canto_lines` catches both exceptions and returns what it had appended so far. So a missing file gives `[]`, and a faulty one gives a prefix of its lines. `FileLines` is the list of lines the reading loop receives, each as Python yields it, line terminator included.

The pure parts of the class are functions over `FileLines`: `count_verses`, `count_tercets`, `count_word`, `count_hell_verses` and the strip. The parts built from loops are methods with loop invariants, proved against specification functions: `read_canto_lines`, `count_words`, `get_hell_verses`, `get_hell_verse_mean_len`, `get_longest_canto`, `get_longest_verse` and `get_verse_with_word`. `CantoNotFoundError` becomes the `Err` case of a `Result`. Callers propagate it just as the exception propagates out of the Python methods.

Points where the code's behaviour is easy to misread:
- The line limit only takes effect for a positive `num_lines`. The loop checks `len(canto_verses) == num_lines` after each append, so a limit of 0 or less returns every line.
- An I/O error other than a missing file returns the lines read before the error, not an empty list.
- The exclusion set is `string.punctuation` (32 characters) plus space, `\n`, `«`, `»` and `’`. No other characters are in it.
- `count_words` with an empty word list never calls `read_canto_lines`. It therefore returns an empty map even for an invalid canto number.

## Model

| member | source | states |
|---|---|---|
| `Stripping.Strip` | virgilio.py:125 | `s.strip(chars)` for a set given by its membership test: the result is no longer than the input, and it is empty or neither starts nor ends with a character of the set (`StripShape` and `StripUnique` below determine it completely) |
| `Stripping.StripShape` | virgilio.py:125 | the stripped string is a contiguous piece of the input; every character cut from either end is in the set; the result is empty or neither starts nor ends with a character of the set |
| `Stripping.StripUnique` | virgilio.py:125 | for any split of a string into removable prefix, middle part and removable suffix, where the middle part is empty or has non-removable ends, strip returns exactly the middle part (so interior characters are never removed) |
| `Stripping.StripIdempotent` | virgilio.py:125 | stripping a stripped string changes nothing |
| `Virgilio.IsExcludedMatchesConstant` | virgilio.py:8 | `CHARS_TO_EXCLUDE` has 37 characters: the 32 of `string.punctuation` plus space, newline, U+00AB, U+00BB and U+2019; the range predicate used for stripping accepts exactly these |
| `Virgilio.Sanitize` | virgilio.py:226-229 | `verse.strip(CHARS_TO_EXCLUDE)` as `read_canto_lines` applies it when `strip_lines` is set: the result is no longer than the verse, and it is empty or neither starts nor ends with an excluded character |
| `Virgilio.SanitizeShape` | virgilio.py:8 | `verse.strip(CHARS_TO_EXCLUDE)` is a contiguous piece of the verse; only characters of `CHARS_TO_EXCLUDE` were cut, and the result is empty or neither starts nor ends with one |
| `Virgilio.SanitizeIdempotent` | virgilio.py:227 | a verse loaded with `strip_lines` (or sanitized for the mean length) is unchanged by a second strip |
| `Virgilio.ReadCantoLines` | virgilio.py:199-236 | fails with `CantoNotFoundError` and its message exactly when the number is outside 1..34; otherwise returns the file's lines in file order, stripped when asked; with a limit 0 < k <= #lines it returns the first k lines, and with no limit or any other limit it returns all lines; a missing file gives an empty list and a failing file gives the lines before the error |
| `Virgilio.ReadCanto` | virgilio.py:216-236 | with the default arguments, `read_canto_lines(n)` is `CantoNotFoundError` for numbers outside 1..34 and otherwise the file's raw lines |
| `Virgilio.CountVerses` | virgilio.py:45-54 | fails exactly for numbers outside 1..34; otherwise the number of lines of the canto file |
| `Virgilio.CountTercets` | virgilio.py:31-43 | fails exactly for numbers outside 1..34; otherwise t with 3t <= verses < 3t + 3, which is floor division by 3 |
| `Substrings.Count` | virgilio.py:67 | for a non-empty word, count times word length is at most the length of the text |
| `Substrings.Occurrences` | virgilio.py:67 | the matches `str.count` makes are real, in increasing order and non-overlapping, and there are `count` of them |
| `Substrings.CountIsMaximal` | virgilio.py:67 | no list of non-overlapping occurrences is longer than `count`: the left-to-right scan finds the maximum number |
| `Substrings.ContainsByCount` | virgilio.py:194 | `word in verse` holds exactly when the word is empty or `verse.count(word)` is at least 1, so an empty word is found in every verse |
| `Substrings.CountZeroIff` | virgilio.py:67 | for a non-empty word, the count is zero exactly when the word does not occur |
| `Substrings.CountConcat` | virgilio.py:67 | counting in a concatenation finds at least the occurrences of both parts together |
| `Substrings.Join` | virgilio.py:67 | `" ".join(verses)` of a non-empty list is as long as the verses together plus one space between each pair of neighbours, and starts with the first verse |
| `Substrings.JoinCountsEachVerse` | virgilio.py:67 | counting in the space-joined verses finds at least the sum of per-verse counts; matches may also span a verse boundary |
| `Substrings.ContainsInJoin` | virgilio.py:67 | a word inside one verse is inside the space-joined verses |
| `Virgilio.CountWord` | virgilio.py:56-67 | fails exactly for numbers outside 1..34; otherwise `str.count` of the word in the canto's lines joined by single spaces |
| `Virgilio.CountWordBounds` | virgilio.py:66-67 | for a non-empty word: count times word length is at most the joined length; the count is zero exactly when the word is absent; the count is at least the per-verse sum. For the empty word the count is the joined length plus one |
| `Virgilio.CountWords` | virgilio.py:69-95 | fails exactly when the list is non-empty and the number is outside 1..34; otherwise the map's keys are exactly the listed words and each maps to its `count_word` |
| `Virgilio.HellLength` | virgilio.py:105-111 | the concatenation of canti 1..k has as many verses as the canti together |
| `Virgilio.HellLayout` | virgilio.py:105-111 | canto n occupies the slice of the concatenation right after the verses of canti 1..n-1, in its own order |
| `Virgilio.HellHas` | virgilio.py:105-111 | a verse is among the verses of canti 1..k exactly when one of those canti has it |
| `Virgilio.GetHellVerses` | virgilio.py:97-111 | returns the verses of canti 1 to 34 concatenated in canto order |
| `Virgilio.CountHellVerses` | virgilio.py:22-29 | the number of Inferno verses is the sum of the 34 per-canto verse counts |
| `Virgilio.SanitizedNotLonger` | virgilio.py:124-126 | the summed sanitized lengths never exceed the summed raw lengths |
| `Virgilio.GetHellVerseMeanLen` | virgilio.py:113-131 | no result exactly when the Inferno has no verses (the division by zero); otherwise the verse count is the total number of verses and the length total is the sum of sanitized verse lengths, at most the raw total |
| `Virgilio.GetLongestCanto` | virgilio.py:133-156 | the length is the greatest verse count over canti 1..34 and the number is the first canto reaching it; when every canto is empty the result is the sentinel canto 0 of length 0 |
| `Virgilio.GetLongestVerse` | virgilio.py:158-177 | fails exactly for numbers outside 1..34; otherwise no verse is longer than the result; a non-empty result is the earliest verse of that length; the result is `""` when the canto has no non-empty verse |
| `Virgilio.VersesContaining` | virgilio.py:191-197 | every kept verse is a verse of the canto that contains the word, and every verse that contains the word is kept |
| `Virgilio.GetVerseWithWord` | virgilio.py:179-197 | fails exactly for numbers outside 1..34; otherwise returns the verses containing the word, in file order |
| `Virgilio.VersesContainingIsSubsequence` | virgilio.py:191-197 | the verses with the word are a subsequence of the canto, so the original order is kept |
| `Virgilio.VersesContainingIdempotent` | virgilio.py:191-197 | filtering the result again keeps all of it |
| `Virgilio.VerseWithWordIsCounted` | virgilio.py:56-67 | when `get_verse_with_word` finds some verse, `count_word` for the same word is at least 1 |

## Left out

- File access: opening `Canto_<n>.txt`, `os.path.join`, UTF-8 decoding and the two exception handlers are replaced by the `Corpus` input. The model does not capture the file system changing between calls. Each call reads the same corpus.
- The `isinstance(canto_number, int)` check and its `TypeError`: the canto number is typed `int`, so the check cannot fail.
- Writing `words_count.json` (indentation, sorted keys, overwrite) and the success or failure message of that write in `count_words`. `CountWords` returns the map the source returns in both cases.
- The printed diagnostics: file not found, error while opening, no verses for the mean, serialization result.
- `GetHellVerseMeanLen`: the floating-point division and `round(..., 2)` are not modelled. The method returns the two integers that are divided, or nothing where the source prints a message and returns `None`.
- `Virgilio.CountWords`: the order of the dictionary's keys is not modelled, because a Dafny `map` is unordered. A repeated word is counted again and keeps its one key.
- The first, unused `read_canto_lines` call in `count_tercets`. It raises exactly when the second call does, so the result is the same.
- The module-level instance built with a placeholder directory.
- `Virgilio` as an object: its directory is the `corpus` parameter of every operation rather than a field.
