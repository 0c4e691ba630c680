# Recitation player and Qur'an data shaping, modelled in Dafny

This project models two parts of a Bangla Qur'an reader.

- **The recitation player hook** (`useAudioPlayer`). It holds the observable state
  `{isPlaying, isLoading, currentAyah}`, the one audio resource it owns, and four autoplay
  queue cells: autoplay on/off, the queued surah, the 0-based index and the queue length.
  Every entry point (`play`/`playWithOptions`, `stop`) and every event of the audio
  resource (`loadeddata`, `ended`, `error`, a rejected `audio.play()`) is a pure
  transition on a `Player` value (module `Playback`). The class `Playback.AudioPlayer`
  holds the same state in fields, and each of its methods performs one transition in place.
  Each method is proved to produce exactly the transition function's result, and to keep
  the player's consistency invariant. Event sequences are run with `Playback.Run`, which
  is how autoplay through a whole surah is stated and proved.
- **The shaping helpers of the data layer**, applied once the JSON responses have arrived
  (module `QuranApi`). They cover:
  - the surah list and its cached fallback;
  - the per-verse records and their words: from the word-by-word service when it has any,
    otherwise split out of the Arabic text with a leading Basmala removed;
  - the verse-to-words index;
  - the translation fallback and the recitation URL;
  - the surah detail header and the page table.
  The two lookup tables with fallbacks (common word meanings, Bangla surah names) are in
  module `Dictionaries`.

Module `Recitation` holds the verse key `"surah:ayah"` and the recitation URL. The player
and the surah-detail builder write the URL with the same template
(`src/hooks/use-audio-player.tsx:51-53` and `src/lib/quran-api.ts:102`), so one function,
`Recitation.AudioUrl`, models both.

Module `Strings` models the JavaScript built-ins the code relies on:
- `String(n)` on integers and `Number(s)` on decimal strings;
- `padStart`, `split` on one character, `trim` and `split(/\s+/)`;
- `||` on strings, where the empty string is falsy.

The string literals of the source are stored mis-encoded: UTF-8 text read as code page 866.
The model uses the decoded text.

Each lookup table is given twice: as written (`Dictionaries.CommonWordAsWritten`,
`Dictionaries.SurahNameAsWritten`) and corrected (`Dictionaries.CommonWord`,
`Dictionaries.SurahName`). The surah list, the surah detail and both word paths use the
tables as written, so the model computes what the program computes. The corrected tables
appear only as the intended half of the Findings below.

Three behaviours of the hook worth noting:
- **Toggle.** Calling `play` for the current verse pauses it and goes idle whenever a
  resource exists. This happens even while that verse is still loading: `isPlaying` is not
  tested (`src/hooks/use-audio-player.tsx:35`).
- **Error.** An `error` event, or a rejected `audio.play()`, idles the visible state only.
  It does not clear the autoplay queue (`src/hooks/use-audio-player.tsx:89-96`).
- **Stale events.** The listeners of a superseded or stopped resource are never removed,
  so their late events still change the state. `Playback.StaleEventsStillApply` states two
  such cases.

## Model

| member | source | states |
|---|---|---|
| Recitation.AyahKey | src/hooks/use-audio-player.tsx:32 | The key `${surah}:${ayah}`. Its properties are `AyahKeyRoundTrip` and `AyahKeyInjective`. |
| Recitation.ParseAyahKey | src/hooks/use-audio-player.tsx:65-67 | Split at ":", then `Number` on the first two fields; a missing field is NaN (`None`). It inverts `AyahKey` (`AyahKeyRoundTrip`). |
| Recitation.Pad3 | src/hooks/use-audio-player.tsx:51-52 | `String(n).padStart(3, '0')`. Its properties are in `Pad3Value`. |
| Recitation.AudioUrl | src/hooks/use-audio-player.tsx:53 | The recitation URL; the same template is used at `src/lib/quran-api.ts:102`. Its properties are `AudioUrlInjective` and `AudioUrlExamples`. |
| Playback.PlayStep | src/hooks/use-audio-player.tsx:31-56 | The inner `play` on a player value. Its properties are `ToggleRule`, `FreshPlay` and `ToggleCycle`. |
| Playback.QueueFor | src/hooks/use-audio-player.tsx:103-116 | The queue `playWithOptions` installs; see `PlayWithOptionsQueue`. |
| Playback.PlayWithOptionsStep | src/hooks/use-audio-player.tsx:102-119 | The exported `play` on a player value; see `PlayWithOptionsQueue`. |
| Playback.StopStep | src/hooks/use-audio-player.tsx:121-132 | `stop` on a player value; see `StopIdempotent`. |
| Playback.LoadedStep | src/hooks/use-audio-player.tsx:58-60 | The `loadeddata` listener on a player value; see `LoadedPlays`. |
| Playback.EndedStep | src/hooks/use-audio-player.tsx:62-67 | The `ended` listener: parse the key's surah, then `AdvanceQueue`; see `EndedOfKey`. |
| Playback.AdvanceQueue | src/hooks/use-audio-player.tsx:69-86 | Advance or exhaust the queue; see `QueueAdvances` and `QueueExhausted`. |
| Playback.FailStep | src/hooks/use-audio-player.tsx:89-96 | The `error` listener and the rejection `catch`; see `FailureGoesIdle`. |
| Playback.Step | src/hooks/use-audio-player.tsx:31-132 | One call or event; see `StepValid`. |
| Playback.Run | src/hooks/use-audio-player.tsx:31-132 | A sequence of calls and events; see `RunValid`, `RunAppend` and `AutoplaySurah`. |
| QuranApi.RevelationOf | src/lib/quran-api.ts:22 | The revelation mapping; see `RevelationMapping`. |
| QuranApi.SurahOf | src/lib/quran-api.ts:16-23 | One list entry, with the Bangla name from the name table as written; see `SurahListShape` and `SurahOfMaarij`. |
| QuranApi.CachedSurahList | src/lib/quran-api.ts:322-328 | The three cached surahs; see `SurahListNamesAgree` and `PageOneIsAlFaatiha`. |
| QuranApi.SurahList | src/lib/quran-api.ts:15-30 | `fetchSurahList` after its request; see `SurahListShape`. |
| QuranApi.ShapeWord | src/lib/quran-api.ts:82-88 | One service word, with the meaning fallback from the word table as written; see `ShapeWordsFields`. |
| QuranApi.ShapeWords | src/lib/quran-api.ts:80-88 | It has one shaped word per kept entry; the fields are in `ShapeWordsFields`. |
| QuranApi.StripBismillah | src/lib/quran-api.ts:129 | The leading Basmala removal; see `StripLeadingBismillah`. |
| QuranApi.CleanText | src/lib/quran-api.ts:129 | Strip, then `trim`; see `ParseWordsContent`. |
| QuranApi.ParseWordsFromText | src/lib/quran-api.ts:127-139 | `parseWordsFromText`, with meanings from the word table as written; see `ParseWordsShape`, `ParseWordsContent` and `ParseWordsRoundTrip`. |
| QuranApi.TextWord | src/lib/quran-api.ts:132-138 | One word split out of the text, with the meaning from the word table as written; see `TextWordAlHamdu`. |
| QuranApi.NumberWords | src/lib/quran-api.ts:132-138 | It has one word per piece; see `TextsOfNumberWords`. |
| QuranApi.AyahWords | src/lib/quran-api.ts:79-94 | The words of one verse; see `AyahWordsSource`. |
| QuranApi.WordIndex | src/lib/quran-api.ts:58-63 | The verse-to-words index; see `IndexVerses`, `WordIndexDomain` and `WordIndexLastSetter`. |
| QuranApi.WordsFor | src/lib/quran-api.ts:74 | `wordByWordData[numberInSurah] \|\| []`; see `AyahRecords`. |
| QuranApi.TranslationAt | src/lib/quran-api.ts:100 | The translation or the fixed notice; see `AyahRecords`. |
| QuranApi.ShapeAyah | src/lib/quran-api.ts:96-103 | One verse record; see `AyahRecords`. |
| QuranApi.ShapeAyahs | src/lib/quran-api.ts:72-104 | It has one record per verse; the fields are in `AyahRecords` and `AyahUrlsDistinct`. |
| QuranApi.SurahDetailOf | src/lib/quran-api.ts:34-124 | `fetchSurahDetail` after its requests, with the name table as written; see `SurahDetailShape`. |
| QuranApi.PageAyatMapping | src/lib/quran-api.ts:330-338 | The page table; see `PageAyatMappingKnown` and `PageOneIsAlFaatiha`. |
| Dictionaries.CommonWordAsWritten | src/lib/quran-api.ts:143-184 | The common-word table as written. Every entry is non-empty, so the truthiness test at line 190 is the presence of the key. |
| Dictionaries.WordMeaningFallbackAsWritten | src/lib/quran-api.ts:142-196 | `getWordMeaningFallback` as written, which the model uses; see `WordMeaningLookup` and `CommonWordsAsWrittenMiss`. |
| Dictionaries.WordMeaningFallback | src/lib/quran-api.ts:142-196 | The same with the corrected table, used only in the Findings; see `CommonWordsCorrected`. |
| Dictionaries.BanglaSurahNameAsWritten | src/lib/quran-api.ts:200-319 | `getBanglaSurahName` as written, which the model uses; see `BanglaSurahNameLookup` and `SurahNamesAsWrittenMiss`. |
| Dictionaries.BanglaSurahName | src/lib/quran-api.ts:200-319 | The same with the corrected table, used only in the Findings; see `SurahNamesCorrected`. |
| Strings.IntToString | src/hooks/use-audio-player.tsx:32 | `String(i)`; see `IntToStringShape` and `NumberOfIntToString`. |
| Strings.ParseNumber | src/hooks/use-audio-player.tsx:66-67 | `Number(s)` on decimal strings; see `NumberOfIntToString`. |
| Strings.PadStart | src/hooks/use-audio-player.tsx:51-52 | `padStart`; see `PadStartSpec`. |
| Strings.Split | src/hooks/use-audio-player.tsx:65 | `split` on one character; see `JoinSplit` and `SplitPieces`. |
| Strings.Trim | src/lib/quran-api.ts:129 | `trim`; see `TrimSpec` and `TrimIdempotent`. |
| Strings.OrElse | src/lib/quran-api.ts:84-86 | `x \|\| fallback` on strings, where the empty string is falsy; see `ShapeWordsFields`. |
| Playback.AudioPlayer.constructor | src/hooks/use-audio-player.tsx:10-20 | A new player is idle, owns no resource and has the cleared queue (autoplay off, no surah, index -1, length 0). |
| Playback.AudioPlayer.Play | src/hooks/use-audio-player.tsx:31-56 | The inner `play` turns the fields into exactly `PlayStep` of the old state and keeps the consistency invariant. |
| Playback.AudioPlayer.PlayWithOptions | src/hooks/use-audio-player.tsx:102-119 | The exported `play` installs the queue, runs the inner `play`, yields exactly `PlayWithOptionsStep` and keeps the invariant. |
| Playback.AudioPlayer.Stop | src/hooks/use-audio-player.tsx:121-132 | `stop` yields exactly `StopStep`, which is the initial state, and keeps the invariant. |
| Playback.AudioPlayer.OnLoadedData | src/hooks/use-audio-player.tsx:58-60 | The `loadeddata` listener yields exactly `LoadedStep` for its captured key. |
| Playback.AudioPlayer.OnEnded | src/hooks/use-audio-player.tsx:62-87 | The `ended` listener reads the surah back from its key and yields exactly `EndedStep`. |
| Playback.AudioPlayer.Advance | src/hooks/use-audio-player.tsx:69-86 | Either it advances the queue index and plays the next verse, or it clears the queue and goes idle: exactly `AdvanceQueue`. |
| Playback.AudioPlayer.OnError | src/hooks/use-audio-player.tsx:89-91 | The `error` listener yields exactly `FailStep`: the view goes idle, and the queue and the resource stay. |
| Playback.AudioPlayer.OnPlayRejected | src/hooks/use-audio-player.tsx:93-97 | A rejected `audio.play()` yields exactly `FailStep`. |
| Playback.ToggleRule | src/hooks/use-audio-player.tsx:34-39 | `play` goes idle if and only if the requested key is the current verse and a resource exists. The resource is then kept, paused, and the queue is unchanged. |
| Playback.FreshPlay | src/hooks/use-audio-player.tsx:41-56 | Any other call shows the verse loading, with a new unpaused resource bound to the verse's URL, and keeps the queue. |
| Playback.ToggleCycle | src/hooks/use-audio-player.tsx:34-47 | Play, play again, play a third time: loading, then idle (even though the verse never played), then loading afresh. |
| Playback.LoadedPlays | src/hooks/use-audio-player.tsx:58-60 | `loadeddata` shows its own verse playing and changes nothing else. |
| Playback.PlayWithOptionsQueue | src/hooks/use-audio-player.tsx:103-118 | With autoplay, the queue becomes (surah, ayah - 1, queueLength or 0); without it, the queue is cleared. The inner `play` then runs on that queue. |
| Playback.FailureGoesIdle | src/hooks/use-audio-player.tsx:89-96 | An error or a rejection makes the view idle and keeps the queue and the resource. |
| Playback.StopIdempotent | src/hooks/use-audio-player.tsx:121-132 | `stop` from any state gives the initial state, so stopping twice is stopping once. |
| Playback.EndedOfKey | src/hooks/use-audio-player.tsx:64-67 | `ended` for a verse key parses the key back to its own surah. |
| Playback.EndedAdvances | src/hooks/use-audio-player.tsx:69-78 | With autoplay on the same surah and `index + 1 < length`, `ended` moves the index on and plays verse `index + 2`. |
| Playback.QueueAdvances | src/hooks/use-audio-player.tsx:69-78 | The same advance, stated on the parsed surah. |
| Playback.EndedExhausts | src/hooks/use-audio-player.tsx:81-86 | In every other case `ended` clears the queue and goes idle, keeping the resource. |
| Playback.QueueExhausted | src/hooks/use-audio-player.tsx:81-86 | The same exhaustion, stated on the parsed surah, including a NaN surah. |
| Playback.NonAutoplayEndsIdle | src/hooks/use-audio-player.tsx:103-116 | Once `play` has run without autoplay (options absent, or `autoplay` absent or false), the next `ended` always goes idle with the queue cleared. |
| Playback.StepValid | src/hooks/use-audio-player.tsx:31-132 | Every transition keeps the state consistent: never playing and loading at once, a current verse exactly while playing or loading, a resource behind a load, and a queue that is cleared or names its surah. |
| Playback.RunValid | src/hooks/use-audio-player.tsx:31-132 | Every sequence of calls and events keeps the state consistent. |
| Playback.RunAppend | src/hooks/use-audio-player.tsx:58-91 | Running two event sequences one after the other is running their concatenation. |
| Playback.ListenOne | src/hooks/use-audio-player.tsx:69-76 | One queued verse heard to the end, while the queue has a next verse, leaves the next verse loading with the queue pointing at it. |
| Playback.ListenAdvances | src/hooks/use-audio-player.tsx:69-76 | Hearing verses `ayah` to `to - 1` of the queue leaves verse `to` loading: the queue visits the verses in order. |
| Playback.AutoplayStarts | src/hooks/use-audio-player.tsx:104-109 | Autoplay from verse 1 starts verse 1 loading with the queue at index 0. |
| Playback.ListenLast | src/hooks/use-audio-player.tsx:81-86 | When the last verse of the queue ends, the player is idle with the queue cleared. |
| Playback.AutoplaySurah | src/hooks/use-audio-player.tsx:62-87 | Autoplay through a surah of n verses: after verses 1 to k - 1 end, verse k is loading, for every k up to n. When verse n ends, the player is idle and the queue cleared. |
| Playback.AutoplayBoundary | src/hooks/use-audio-player.tsx:72 | With a one-verse queue, the first `ended` goes straight to idle. |
| Playback.LoadedAfterStop | src/hooks/use-audio-player.tsx:58-60 | A `loadeddata` arriving after `stop` shows its verse playing while no resource exists. |
| Playback.ErrorAfterSwitch | src/hooks/use-audio-player.tsx:89-91 | A stale `error` arriving after another verse was started idles the view of the new verse and keeps its resource. |
| Playback.StaleEventsStillApply | src/hooks/use-audio-player.tsx:42-45 | Dropping a resource does not detach its listeners: both stale cases above can be reached from the initial state. |
| Recitation.AyahKeyRoundTrip | src/hooks/use-audio-player.tsx:65-67 | Splitting a key at ":" and reading both fields with `Number` gives back the surah and the verse. |
| Recitation.AyahKeyInjective | src/hooks/use-audio-player.tsx:32 | Two keys are equal if and only if they name the same verse. |
| Recitation.Pad3Value | src/hooks/use-audio-player.tsx:51-52 | A padded code is all digits, at least three long, exactly three below 1000, and reads back as its number. |
| Recitation.AudioUrlInjective | src/hooks/use-audio-player.tsx:53 | Below 1000, two URLs are equal if and only if they name the same verse. |
| Recitation.AudioUrlExamples | src/lib/quran-api.ts:102 | Surah 1 verse 1 is `001001.mp3`; surah 114 verse 6 is `114006.mp3`. |
| Strings.NumberOfIntToString | src/hooks/use-audio-player.tsx:66-67 | `Number(String(i))` is `i` for every integer. |
| Strings.IntToStringShape | src/hooks/use-audio-player.tsx:32 | `String(i)` is non-empty, starts with a minus sign if and only if `i < 0`, and is the digits of the magnitude after it. |
| Strings.SplitAtFirst | src/hooks/use-audio-player.tsx:65 | Splitting at the first separator gives the piece before it, followed by the split of the rest. |
| Strings.JoinSplit | src/hooks/use-audio-player.tsx:65 | Joining the pieces of a split with the separator gives back the string. |
| Strings.SplitPieces | src/hooks/use-audio-player.tsx:65 | No piece of a split holds the separator. |
| Strings.PadStartSpec | src/hooks/use-audio-player.tsx:51-52 | `padStart` prefixes exactly `width - length` pad characters, or none when the string is long enough. |
| Strings.DigitsValueLeadingZeros | src/hooks/use-audio-player.tsx:51-52 | Leading zeros do not change a digit string's value. |
| Strings.TrimSpec | src/lib/quran-api.ts:129 | `trim` yields the string with exactly a leading and a trailing run of whitespace removed. The result neither starts nor ends with whitespace, and it is empty if and only if the string is all whitespace. |
| Strings.TrimIdempotent | src/lib/quran-api.ts:187 | Trimming twice is trimming once. |
| Strings.Words | src/lib/quran-api.ts:130 | The words of a text are non-empty and hold no whitespace. |
| Strings.WordsContent | src/lib/quran-api.ts:130 | The words, concatenated in order, are exactly the text's non-whitespace characters. |
| Strings.WordsOfJoinWords | src/lib/quran-api.ts:130 | Splitting words joined with single spaces gives the same words back. |
| QuranApi.RevelationMapping | src/lib/quran-api.ts:22 | Makki if and only if the revelation type is "Meccan"; anything else is Madani. |
| QuranApi.SurahListShape | src/lib/quran-api.ts:15-30 | With code 200 the list maps the response entry for entry. Each entry carries the surah's fields, its revelation, and its Bangla name from the name table as written (`getBanglaSurahName`). Otherwise it is the cached list. |
| QuranApi.SurahOfMaarij | src/lib/quran-api.ts:19 | Surah 70's list entry keeps the English name "Al-Ma'aarij" as its Bangla name, because the table's key misses. |
| QuranApi.SurahListNamesAgree | src/lib/quran-api.ts:322-328 | Every entry's Bangla name is the one the name table as written gives its English name, the cached entries included. |
| QuranApi.Filter | src/lib/quran-api.ts:81 | The filter keeps no more entries than it was given, and every kept one is a word entry taken from the input. |
| QuranApi.FilterAppend | src/lib/quran-api.ts:81 | Filtering distributes over concatenation, so the kept words stay in order. |
| QuranApi.FilterKeepsWord | src/lib/quran-api.ts:81 | Every word entry is kept. |
| QuranApi.FilterOfWordEntries | src/lib/quran-api.ts:81 | A list made only of word entries is kept whole. |
| QuranApi.ShapeWordsFields | src/lib/quran-api.ts:80-88 | Service words are numbered 1..n with morph "word". Each field follows its `||` chain: Uthmani then Imlaei text; the transliteration, else empty; the translation, else the meaning from the word table as written. |
| QuranApi.TextsOfNumberWords | src/lib/quran-api.ts:132-138 | Numbering keeps the words themselves, in order. |
| QuranApi.ParseWordsShape | src/lib/quran-api.ts:127-139 | Words split out of a text are numbered 1..n and hold no whitespace. Transliteration and morph are empty, and the meaning comes from the word table as written. |
| QuranApi.TextWordAlHamdu | src/lib/quran-api.ts:136 | "al-hamdu" split out of a text gets the generic meaning, because the table's key misses. |
| QuranApi.ParseWordsContent | src/lib/quran-api.ts:129-130 | Together the parsed words are exactly the non-whitespace characters of the cleaned text. |
| QuranApi.TextsOfParse | src/lib/quran-api.ts:129-134 | The texts of the parsed words are the words of the cleaned text. |
| QuranApi.ParseWordsRoundTrip | src/lib/quran-api.ts:127-139 | Words joined with single spaces parse back one for one, when the text does not begin with the Basmala. |
| QuranApi.ParseWordsAfterBismillah | src/lib/quran-api.ts:129 | A leading Basmala and the space after it are dropped, and the words after it parse back one for one. |
| QuranApi.StripLeadingBismillah | src/lib/quran-api.ts:129 | A text beginning with the Basmala loses it together with the whitespace that follows. |
| QuranApi.AyahWordsSource | src/lib/quran-api.ts:79-94 | The verse text is parsed exactly when the filter keeps no service word. Otherwise the service words are used. Either way the words are numbered 1..n. |
| QuranApi.IndexVerses | src/lib/quran-api.ts:58-63 | The `forEach` loop builds exactly the index `WordIndex` describes. |
| QuranApi.WordIndexDomain | src/lib/quran-api.ts:59-63 | A verse number has an entry if and only if some verse with words has that number. |
| QuranApi.WordIndexLastSetter | src/lib/quran-api.ts:59-63 | A number's entry is the words of the last verse with that number, so a later verse overrides an earlier one. |
| QuranApi.AyahRecords | src/lib/quran-api.ts:72-104 | The records follow the verses one for one. Each carries its verse's number and text. Its words are the verse's words from the index entry for its number, or else from its text, numbered 1..n. It has the translation at the same position (the fixed notice when missing or empty). Its audio URL is the base, the two 3-digit codes and ".mp3". |
| QuranApi.AyahUrlsDistinct | src/lib/quran-api.ts:102 | Two verses of a surah with different numbers below 1000 get different audio files. |
| QuranApi.SurahDetailShape | src/lib/quran-api.ts:46-119 | A detail exists if and only if both bodies came back with code 200. Its header is the list entry for the same description. Its verses are the records of the Arabic verses, built with the Bangla texts and the index of the word-by-word verses (empty without them). It carries the fixed meta block. |
| QuranApi.PageAyatMappingKnown | src/lib/quran-api.ts:330-338 | A page is known if and only if it is page 1 or 2. |
| QuranApi.PageOneIsAlFaatiha | src/lib/quran-api.ts:332 | Page 1 is Al-Faatiha, verses 1 to the verse count the cached list gives it. |
| Dictionaries.WordMeaningLookup | src/lib/quran-api.ts:186-195 | With the table as written: a word whose trimmed form is a key gets its entry. Any other word, and an absent word, gets the generic meaning. |
| Dictionaries.WordMeaningIgnoresWhitespace | src/lib/quran-api.ts:187 | The meaning depends only on the trimmed word, with the table as written and with the corrected one. |
| Dictionaries.CommonWord | src/lib/quran-api.ts:143-184 | Every entry of the corrected common-word table is non-empty. |
| Dictionaries.CommonWordsAsWrittenMiss | src/lib/quran-api.ts:150 | As written, the keys for "al-hamdu" (line 150) and "al-kitabi" (line 172) each contain a Bengali letter, so the Arabic words get the generic meaning. |
| Dictionaries.CommonWordsCorrected | src/lib/quran-api.ts:143-184 | Corrected, the two words get their meanings, and every other word is looked up as before. |
| Dictionaries.SurahNameAsWritten | src/lib/quran-api.ts:201-316 | Every entry of the surah-name table is non-empty. |
| Dictionaries.SurahName | src/lib/quran-api.ts:201-316 | Every entry of the corrected surah-name table is non-empty. |
| Dictionaries.BanglaSurahNameLookup | src/lib/quran-api.ts:318 | With the table as written: a known English name gets its Bangla name, and any other name comes back unchanged. |
| Dictionaries.SurahNamesAsWrittenMiss | src/lib/quran-api.ts:271 | As written, surah 70's key contains a Bengali letter, so "Al-Ma'aarij" comes back untranslated. |
| Dictionaries.SurahNamesCorrected | src/lib/quran-api.ts:201-316 | Corrected, "Al-Ma'aarij" gets its Bangla name, and every other name is looked up as before. |

## Left out

- Network and JSON decoding: `fetch`, `Promise.all`, `response.json()`, `try`/`catch` and `console.error` in `fetchSurahList`, `fetchSurahDetail` and the page functions. Decoded bodies are inputs. For the surah list and the Arabic and Bangla bodies of the detail, `None` stands for a request that was rejected or a body that could not be read; both reach the outer `catch`. A rejected word-by-word request also makes `Promise.all` reject, so the whole detail is null: that case is given as `arabic == None`. `wordVerses == None` stands only for a word-by-word body that could not be read or has no `verses`, which the inner `catch` at `src/lib/quran-api.ts:55-67` absorbs.
- `fetchQuranPageContent` and `fetchSurahStartPage`: they only assemble HTML or read one field of a response, with no logic of their own beyond the network.
- `verifySurahAyatMapping`: its table is identical to the one in `fetchPageAyatMapping`, which `QuranApi.PageAyatMapping` models.
- The `ATTRIBUTION` constant and the module's URL constants that are used only for requests.
- The hook's unmount cleanup (`useEffect`): it pauses and drops the resource, which is `stop` without clearing the queue or the state. The model has no unmounting.
- React's batching and render closures. `state.currentAyah`, read by `play`, is taken to be the latest state. An autoplay call from an `ended` listener in fact runs the `play` of an earlier render, which may see an older `currentAyah`.
- The media element itself: buffering, autoplay policy and the timing of events. Events are inputs that may arrive in any order, including from resources already dropped.
- Only one hook instance is modelled; each verse card in the application has its own player.
- `Number` is modelled on optionally signed decimal strings with surrounding whitespace. Other syntaxes (hexadecimal, exponents, `Infinity`) read as `None`, which also stands for NaN. All keys are built from integers, so such syntaxes do not arise.
- Numbers are unbounded integers. Floating-point verse or surah numbers, and `queueLength` values that are NaN, are not modelled; `options?.queueLength || 0` is modelled as "the given length, else 0".
- Strings are sequences of code points, not UTF-16 units; every code point in the tables is in the basic plane.
- The lookup tables are functions from key to entry. Inherited object-literal keys such as `"constructor"` are not modelled.
- Recitation.AudioUrlInjective: proved for numbers below 1000 only. Above that the 3-digit padding no longer fixes where one code ends, which no surah or verse number reaches.

## Findings

| source | as written | input that shows it | evidently intended | confidence | as-written member | corrected member |
|---|---|---|---|---|---|---|
| src/lib/quran-api.ts:150 | The key for "al-hamdu" has the Bengali letter DA (U+09A6) as its eighth character in place of the Arabic DAL. | the Arabic word ٱلۡحَمۡدُ | that word is found and gets the meaning প্রশংসা | high, not executed | Dictionaries.CommonWordsAsWrittenMiss | Dictionaries.CommonWordsCorrected |
| src/lib/quran-api.ts:172 | The key for "al-kitabi" has the Bengali letter BA (U+09AC) as its tenth character in place of the Arabic BEH. | the Arabic word ٱلۡكِتَـٰبِ | that word is found and gets the meaning কিতাবের | high, not executed | Dictionaries.CommonWordsAsWrittenMiss | Dictionaries.CommonWordsCorrected |
| src/lib/quran-api.ts:271 | The key for surah 70 is "Al-Ma'aar" followed by the Bengali letters I-sign and JA (U+09BF, U+099C). | the English name "Al-Ma'aarij" | that name is found and gets the Bangla name মাআরিজ | high, not executed | Dictionaries.SurahNamesAsWrittenMiss | Dictionaries.SurahNamesCorrected |
