/** The shaping done by the Qur'an data layer once the JSON has arrived: surah list
    entries, the per-verse records of a surah, their words (from the word-by-word service
    when it has any, otherwise split out of the Arabic text), the verse-to-words index
    filled from the word-by-word response, and the small page table.  The responses are
    inputs: `None` stands for a request whose body could not be read. */
module QuranApi {
  import opened Strings
  import opened Recitation
  import opened Dictionaries

  // ---------------------------------------------------------------------------
  // Surahs

  datatype Revelation = Makki | Madani

  /** `revelationType === "Meccan" ? "Makki" : "Madani"`. */
  function RevelationOf(revelationType: string): Revelation {
    if revelationType == "Meccan" then Makki else Madani
  }

  /** A surah as the Al-Quran Cloud service describes it. */
  datatype RawSurah = RawSurah(number: int, name: string, englishName: string, numberOfAyahs: int, revelationType: string)

  /** A surah as the application shows it. */
  datatype Surah = Surah(surahNumber: int, name: string, nameBn: string, englishName: string, ayahCount: int, revelation: Revelation)

  /** A decoded response body: its `code` and its `data`. */
  datatype Response<T> = Response(code: int, data: T)

  /** One entry of the surah list. */
  function SurahOf(raw: RawSurah): Surah {
    Surah(raw.number, raw.name, BanglaSurahNameAsWritten(raw.englishName), raw.englishName, raw.numberOfAyahs,
          RevelationOf(raw.revelationType))
  }

  /** The three surahs shown when the list cannot be fetched. */
  function CachedSurahList(): seq<Surah> {
    [ Surah(1, "الفاتحة", "ফাতিহা", "Al-Faatiha", 7, Makki),
      Surah(2, "البقرة", "বাকারা", "Al-Baqara", 286, Madani),
      Surah(36, "يس", "ইয়াসিন", "Yaseen", 83, Makki) ]
  }

  /** `fetchSurahList` after the request: the mapped list when the body reads and its code
      is 200, the cached list otherwise. */
  function SurahList(response: Option<Response<seq<RawSurah>>>): seq<Surah> {
    if response.Some? && response.value.code == 200 then
      var raw := response.value.data;
      seq(|raw|, i requires 0 <= i < |raw| => SurahOf(raw[i]))
    else CachedSurahList()
  }

  /** Only "Meccan" is Makki; every other revelation type, however spelt, is Madani. */
  lemma RevelationMapping(revelationType: string)
    ensures RevelationOf(revelationType) == Makki <==> revelationType == "Meccan"
    ensures RevelationOf(revelationType) == Madani <==> revelationType != "Meccan"
  {
  }

  /** A successful list has one entry per surah of the response, in order, carrying its
      number, names, verse count and revelation; a failed one is the cached list. */
  lemma SurahListShape(response: Option<Response<seq<RawSurah>>>)
    ensures var r := SurahList(response);
      response.Some? && response.value.code == 200 ==>
        var raw := response.value.data;
        && |r| == |raw|
        && forall i :: 0 <= i < |raw| ==>
             && r[i].surahNumber == raw[i].number && r[i].name == raw[i].name
             && r[i].englishName == raw[i].englishName && r[i].ayahCount == raw[i].numberOfAyahs
             && r[i].nameBn == BanglaSurahNameAsWritten(raw[i].englishName)
             && (r[i].revelation == Makki <==> raw[i].revelationType == "Meccan")
    ensures !(response.Some? && response.value.code == 200) ==> SurahList(response) == CachedSurahList()
  {
  }

  /** Surah 70's entry keeps its English name: the table's key for it carries Bengali
      letters, so the lookup misses. */
  lemma SurahOfMaarij(number: int, name: string, numberOfAyahs: int, revelationType: string)
    ensures SurahOf(RawSurah(number, name, Maarij, numberOfAyahs, revelationType)).nameBn == Maarij
  {
    SurahNamesAsWrittenMiss();
  }

  /** Whichever way the list is obtained, each entry's Bangla name is the one the name
      table gives its English name: the cached entries agree with the table. */
  lemma SurahListNamesAgree(response: Option<Response<seq<RawSurah>>>)
    ensures var r := SurahList(response);
      forall i :: 0 <= i < |r| ==> r[i].nameBn == BanglaSurahNameAsWritten(r[i].englishName)
  {
    var cached := CachedSurahList();
    assert BanglaSurahNameAsWritten("Al-Faatiha") == "ফাতিহা";
    assert BanglaSurahNameAsWritten("Al-Baqara") == "বাকারা";
    assert BanglaSurahNameAsWritten("Yaseen") == "ইয়াসিন";
    assert forall i :: 0 <= i < |cached| ==> cached[i].nameBn == BanglaSurahNameAsWritten(cached[i].englishName);
  }

  // ---------------------------------------------------------------------------
  // Words of a verse

  /** A word of the word-by-word service; absent fields are `None`, and `transliteration`
      and `translation` stand for the nested `.text`. */
  datatype RawWord = RawWord(
    charTypeName: Option<string>,
    textUthmani: Option<string>,
    textImlaei: Option<string>,
    transliteration: Option<string>,
    translation: Option<string>)

  /** A word as the application shows it. */
  datatype Word = Word(index: int, textAr: string, transliteration: string, meaningBn: string, morph: string)

  /** Actual words, as opposed to verse-end and pause marks. */
  predicate IsWordEntry(w: RawWord) {
    w.charTypeName == Some("word")
  }

  /** `.filter(word => word.char_type_name === "word")`. */
  function Filter(ws: seq<RawWord>): (r: seq<RawWord>)
    ensures |r| <= |ws|
    ensures forall k :: 0 <= k < |r| ==> IsWordEntry(r[k]) && r[k] in ws
  {
    if ws == [] then []
    else (if IsWordEntry(ws[0]) then [ws[0]] else []) + Filter(ws[1..])
  }

  /** One kept word at 0-based position `idx`. */
  function ShapeWord(w: RawWord, idx: int): Word {
    Word(idx + 1,
         OrElse(w.textUthmani, OrElse(w.textImlaei, "")),
         OrElse(w.transliteration, ""),
         OrElse(w.translation, WordMeaningFallbackAsWritten(w.textUthmani)),
         OrElse(w.charTypeName, ""))
  }

  /** The filter followed by the `map((word, idx) => ...)`. */
  function ShapeWords(ws: seq<RawWord>): (r: seq<Word>)
    ensures |r| == |Filter(ws)|
  {
    var kept := Filter(ws);
    seq(|kept|, i requires 0 <= i < |kept| => ShapeWord(kept[i], i))
  }

  /** The words are numbered 1, 2, ... in order. */
  predicate Numbered(words: seq<Word>) {
    forall i :: 0 <= i < |words| ==> words[i].index == i + 1
  }

  function Texts(words: seq<Word>): (r: seq<string>)
    ensures |r| == |words|
  {
    seq(|words|, i requires 0 <= i < |words| => words[i].textAr)
  }

  /** Filtering distributes over concatenation, so the kept words keep their order. */
  lemma {:induction false} FilterAppend(a: seq<RawWord>, b: seq<RawWord>)
    ensures Filter(a + b) == Filter(a) + Filter(b)
    decreases |a|
  {
    if a != [] {
      assert (a + b)[0] == a[0];
      assert (a + b)[1..] == a[1..] + b;
      FilterAppend(a[1..], b);
    } else {
      assert a + b == b;
    }
  }

  /** Every word entry is kept. */
  lemma {:induction false} FilterKeepsWord(ws: seq<RawWord>, k: int)
    requires 0 <= k < |ws| && IsWordEntry(ws[k])
    ensures ws[k] in Filter(ws)
  {
    if k > 0 {
      assert ws[k] == ws[1..][k - 1];
      FilterKeepsWord(ws[1..], k - 1);
    }
  }

  predicate AllWordEntries(ws: seq<RawWord>) {
    forall k :: 0 <= k < |ws| ==> IsWordEntry(ws[k])
  }

  /** A list made only of word entries is kept whole. */
  lemma {:induction false} FilterOfWordEntries(ws: seq<RawWord>)
    requires AllWordEntries(ws)
    ensures Filter(ws) == ws
  {
    if ws != [] {
      assert AllWordEntries(ws[1..]) by {
        forall k | 0 <= k < |ws[1..]| ensures IsWordEntry(ws[1..][k]) {
          assert ws[1..][k] == ws[k + 1];
        }
      }
      FilterOfWordEntries(ws[1..]);
      assert IsWordEntry(ws[0]);
      assert [ws[0]] + ws[1..] == ws;
    }
  }

  /** The word-by-word path: the kept words numbered 1..n, each with morph "word", the
      Uthmani text (else the Imlaei text, else empty), the service's transliteration (else
      empty) and its Bangla translation, or else the table's meaning of the Uthmani text. */
  lemma ShapeWordsFields(ws: seq<RawWord>)
    ensures var r := ShapeWords(ws);
      && Numbered(r)
      && forall i :: 0 <= i < |r| ==>
           var w := Filter(ws)[i];
           && r[i].morph == "word"
           && (w.textUthmani.Some? && w.textUthmani.value != "" ==> r[i].textAr == w.textUthmani.value)
           && (w.textUthmani.None? || w.textUthmani.value == "" ==> r[i].textAr == OrElse(w.textImlaei, ""))
           && (w.transliteration.Some? && w.transliteration.value != "" ==> r[i].transliteration == w.transliteration.value)
           && (w.transliteration.None? || w.transliteration.value == "" ==> r[i].transliteration == "")
           && (w.translation.Some? && w.translation.value != "" ==> r[i].meaningBn == w.translation.value)
           && (w.translation.None? || w.translation.value == "" ==> r[i].meaningBn == WordMeaningFallbackAsWritten(w.textUthmani))
  {
  }

  /** The Basmala as written at the head of the first verse of a surah. */
  const Bismillah: string := "بِسۡمِ ٱللَّهِ ٱلرَّحۡمَـٰنِ ٱلرَّحِیمِ"

  /** `text.replace(/^Bismillah\s*\/, "")`: a leading Basmala and the whitespace after it
      are removed. */
  function StripBismillah(text: string): string {
    if Bismillah <= text then TrimStart(text[|Bismillah|..]) else text
  }

  /** `cleanText`: the text without a leading Basmala, trimmed. */
  function CleanText(text: string): string {
    Trim(StripBismillah(text))
  }

  /** `parseWordsFromText`: strip, trim, split on whitespace runs, drop empty pieces, and
      number the words from 1 with their table meaning. */
  function ParseWordsFromText(text: string): seq<Word> {
    NumberWords(Words(CleanText(text)))
  }

  /** The `i`-th word of a text, numbered from 1, with the table's meaning. */
  function TextWord(w: string, i: int): Word {
    Word(i + 1, w, "", WordMeaningFallbackAsWritten(Some(w)), "")
  }

  /** "al-hamdu" split out of a text gets the generic meaning: the table's key for it
      carries a Bengali letter. */
  lemma TextWordAlHamdu(i: int)
    ensures TextWord(AlHamdu, i).meaningBn == GenericMeaning
  {
    CommonWordsAsWrittenMiss();
  }

  function NumberWords(words: seq<string>): (r: seq<Word>)
    ensures |r| == |words|
  {
    seq(|words|, i requires 0 <= i < |words| => TextWord(words[i], i))
  }

  /** Numbering keeps the words themselves. */
  lemma TextsOfNumberWords(words: seq<string>)
    ensures Texts(NumberWords(words)) == words
  {
  }

  /** The text path: words numbered 1..n in text order, none empty or holding whitespace,
      with empty transliteration and morph and the table's meaning. */
  lemma ParseWordsShape(text: string)
    ensures var r := ParseWordsFromText(text);
      && Numbered(r)
      && (forall i :: 0 <= i < |r| ==>
            && r[i].textAr != "" && NoWhitespace(r[i].textAr)
            && r[i].transliteration == "" && r[i].morph == ""
            && r[i].meaningBn == WordMeaningFallbackAsWritten(Some(r[i].textAr)))
  {
    var words := Words(CleanText(text));
    var r := ParseWordsFromText(text);
    assert |r| == |words|;
    forall i | 0 <= i < |r|
      ensures r[i] == TextWord(words[i], i)
    {
    }
  }

  /** Together the words are exactly the non-whitespace characters of the cleaned text. */
  lemma ParseWordsContent(text: string)
    ensures Concat(Texts(ParseWordsFromText(text))) == RemoveWhitespace(CleanText(text))
  {
    TextsOfParse(text);
    WordsContent(CleanText(text));
  }

  /** The texts of the parsed words are the words of the cleaned text. */
  lemma TextsOfParse(text: string)
    ensures Texts(ParseWordsFromText(text)) == Words(CleanText(text))
  {
    TextsOfNumberWords(Words(CleanText(text)));
  }

  /** Words written with single spaces come back one for one, when the text does not begin
      with the Basmala. */
  lemma ParseWordsRoundTrip(ws: seq<string>)
    requires ProperWords(ws)
    requires !(Bismillah <= JoinWords(ws))
    ensures Texts(ParseWordsFromText(JoinWords(ws))) == ws
  {
    ParseJoined(JoinWords(ws), ws);
  }

  lemma ParseJoined(j: string, ws: seq<string>)
    requires ProperWords(ws)
    requires j == JoinWords(ws)
    requires !(Bismillah <= j)
    ensures Texts(ParseWordsFromText(j)) == ws
  {
    JoinWordsTrimmed(ws);
    CleanUnprefixed(j);
    ParseCleanedWords(j, ws);
  }

  /** A text that cleans to words joined by single spaces parses to those words. */
  lemma ParseCleanedWords(text: string, ws: seq<string>)
    requires ProperWords(ws)
    requires CleanText(text) == JoinWords(ws)
    ensures Texts(ParseWordsFromText(text)) == ws
  {
    WordsOfJoinWords(ws);
    TextsOfParse(text);
  }

  lemma CleanUnprefixed(j: string)
    requires Trimmed(j)
    requires !(Bismillah <= j)
    ensures CleanText(j) == j
  {
    TrimNoEdges(j);
  }

  lemma TrimStartSpace(s: string)
    requires s != [] ==> !IsWhitespace(s[0])
    ensures TrimStart(" " + s) == s
  {
    assert (" " + s)[1..] == s;
  }

  /** A leading Basmala is dropped: what follows it comes back word for word. */
  lemma ParseWordsAfterBismillah(ws: seq<string>)
    requires ProperWords(ws)
    ensures Texts(ParseWordsFromText(Bismillah + " " + JoinWords(ws))) == ws
  {
    ParseJoinedAfterBismillah(JoinWords(ws), ws);
  }

  lemma ParseJoinedAfterBismillah(j: string, ws: seq<string>)
    requires ProperWords(ws)
    requires j == JoinWords(ws)
    ensures Texts(ParseWordsFromText(Bismillah + " " + j)) == ws
  {
    JoinWordsTrimmed(ws);
    CleanAfterBismillah(j);
    ParseCleanedWords(Bismillah + " " + j, ws);
  }

  lemma CleanAfterBismillah(j: string)
    requires Trimmed(j)
    ensures CleanText(Bismillah + " " + j) == j
  {
    assert Bismillah + " " + j == Bismillah + (" " + j);
    StripLeadingBismillah(" " + j);
    TrimStartSpace(j);
    TrimNoEdges(j);
  }

  lemma StripLeadingBismillah(rest: string)
    ensures StripBismillah(Bismillah + rest) == TrimStart(rest)
  {
    var text := Bismillah + rest;
    assert text[..|Bismillah|] == Bismillah;
    assert text[|Bismillah|..] == rest;
  }

  /** The words of one verse: the word-by-word entries when there are any and at least one
      is a word, otherwise the words split out of the verse's text. */
  function AyahWords(ayahWords: seq<RawWord>, text: string): seq<Word> {
    var shaped := if |ayahWords| > 0 then ShapeWords(ayahWords) else [];
    if |shaped| == 0 then ParseWordsFromText(text) else shaped
  }

  /** The text is used exactly when the filter keeps nothing; either way the words are
      numbered 1..n. */
  lemma AyahWordsSource(ayahWords: seq<RawWord>, text: string)
    ensures |Filter(ayahWords)| == 0 ==> AyahWords(ayahWords, text) == ParseWordsFromText(text)
    ensures |Filter(ayahWords)| > 0 ==> AyahWords(ayahWords, text) == ShapeWords(ayahWords)
    ensures Numbered(AyahWords(ayahWords, text))
  {
    ShapeWordsFields(ayahWords);
    ParseWordsShape(text);
  }

  // ---------------------------------------------------------------------------
  // The verse-to-words index

  /** A verse of the word-by-word response: its number and its `words`, if present. */
  datatype RawVerse = RawVerse(verseNumber: int, words: Option<seq<RawWord>>)

  /** The index after the `forEach` over `verses`: each verse with words sets its number's
      entry, so a later verse overrides an earlier one with the same number. */
  function WordIndex(verses: seq<RawVerse>): map<int, seq<RawWord>>
    decreases |verses|
  {
    if verses == [] then map[]
    else
      var index := WordIndex(verses[..|verses| - 1]);
      var v := verses[|verses| - 1];
      if v.words.Some? then index[v.verseNumber := v.words.value] else index
  }

  /** The `forEach` itself. */
  method IndexVerses(verses: seq<RawVerse>) returns (index: map<int, seq<RawWord>>)
    ensures index == WordIndex(verses)
  {
    index := map[];
    var i := 0;
    while i < |verses|
      invariant 0 <= i <= |verses|
      invariant index == WordIndex(verses[..i])
    {
      assert verses[..i + 1][..i] == verses[..i];
      if verses[i].words.Some? {
        index := index[verses[i].verseNumber := verses[i].words.value];
      }
      i := i + 1;
    }
    assert verses[..|verses|] == verses;
  }

  /** Verse `v` has words and the number `n`, so the `forEach` sets `n`'s entry from it. */
  predicate Sets(v: RawVerse, n: int) {
    v.verseNumber == n && v.words.Some?
  }

  /** Verse `i` is the last one that sets `n`'s entry. */
  predicate LastSetter(verses: seq<RawVerse>, i: int, n: int) {
    && 0 <= i < |verses| && Sets(verses[i], n)
    && forall j :: i < j < |verses| ==> !Sets(verses[j], n)
  }

  /** A number has an entry exactly when some verse with words has that number. */
  lemma {:induction false} WordIndexDomain(verses: seq<RawVerse>, n: int)
    ensures n in WordIndex(verses) <==> exists i :: 0 <= i < |verses| && Sets(verses[i], n)
    decreases |verses|
  {
    if verses != [] {
      var init := verses[..|verses| - 1];
      WordIndexDomain(init, n);
      if n in WordIndex(init) {
        var i :| 0 <= i < |init| && Sets(init[i], n);
        assert verses[i] == init[i];
      }
      if exists i :: 0 <= i < |verses| && Sets(verses[i], n) {
        var i :| 0 <= i < |verses| && Sets(verses[i], n);
        if i < |init| {
          assert init[i] == verses[i];
        }
      }
    }
  }

  /** The entry of a number is the words of the last verse with that number. */
  lemma {:induction false} WordIndexLastSetter(verses: seq<RawVerse>, n: int)
    requires n in WordIndex(verses)
    ensures exists i :: LastSetter(verses, i, n) && verses[i].words == Some(WordIndex(verses)[n])
    decreases |verses|
  {
    var init := verses[..|verses| - 1];
    var last := |verses| - 1;
    if Sets(verses[last], n) {
      assert LastSetter(verses, last, n);
    } else {
      assert n in WordIndex(init) && WordIndex(verses)[n] == WordIndex(init)[n];
      WordIndexLastSetter(init, n);
      var i :| LastSetter(init, i, n) && init[i].words == Some(WordIndex(init)[n]);
      assert verses[i] == init[i];
      assert forall j :: i < j < |init| ==> init[j] == verses[j];
      assert LastSetter(verses, i, n);
    }
  }

  /** `wordByWordData[numberInSurah] || []`. */
  function WordsFor(index: map<int, seq<RawWord>>, numberInSurah: int): seq<RawWord> {
    if numberInSurah in index then index[numberInSurah] else []
  }

  // ---------------------------------------------------------------------------
  // Verse records

  /** A verse of the Arabic response. */
  datatype RawAyah = RawAyah(numberInSurah: int, text: string)

  /** A verse as the application shows it. */
  datatype Ayah = Ayah(ayahNumber: int, textAr: string, words: seq<Word>, translationBn: string, audioUrl: string)

  /** The Bangla translation shown when none is available. */
  const NoTranslation: string := "অনুবাদ উপলব্ধ নেই"

  /** `banglaAyahs[index]?.text || NoTranslation`; each element of `banglaAyahs` is the
      verse's `text`, if present. */
  function TranslationAt(banglaAyahs: seq<Option<string>>, index: int): string {
    if 0 <= index < |banglaAyahs| then OrElse(banglaAyahs[index], NoTranslation) else NoTranslation
  }

  /** The record of the verse at position `index` of surah `surahNumber`. */
  function ShapeAyah(surahNumber: int, ayah: RawAyah, index: int, banglaAyahs: seq<Option<string>>,
                     wordIndex: map<int, seq<RawWord>>): Ayah {
    Ayah(ayah.numberInSurah, ayah.text,
         AyahWords(WordsFor(wordIndex, ayah.numberInSurah), ayah.text),
         TranslationAt(banglaAyahs, index),
         AudioUrl(surahNumber, ayah.numberInSurah))
  }

  /** The `surah.ayahs.map((ayah, index) => ...)`. */
  function ShapeAyahs(surahNumber: int, ayahs: seq<RawAyah>, banglaAyahs: seq<Option<string>>,
                      wordIndex: map<int, seq<RawWord>>): (r: seq<Ayah>)
    ensures |r| == |ayahs|
  {
    seq(|ayahs|, i requires 0 <= i < |ayahs| => ShapeAyah(surahNumber, ayahs[i], i, banglaAyahs, wordIndex))
  }

  /** The records follow the verses one for one and in order: each carries its verse's
      number and text, the translation at the same position (or the fixed text when that
      is missing or empty), words numbered 1..n, and the recitation URL of the verse. */
  lemma AyahRecords(surahNumber: int, ayahs: seq<RawAyah>, banglaAyahs: seq<Option<string>>,
                    wordIndex: map<int, seq<RawWord>>)
    ensures var r := ShapeAyahs(surahNumber, ayahs, banglaAyahs, wordIndex);
      forall i :: 0 <= i < |ayahs| ==>
        && r[i].ayahNumber == ayahs[i].numberInSurah
        && r[i].textAr == ayahs[i].text
        && r[i].words == AyahWords(WordsFor(wordIndex, ayahs[i].numberInSurah), ayahs[i].text)
        && Numbered(r[i].words)
        && ((i < |banglaAyahs| && banglaAyahs[i].Some? && banglaAyahs[i].value != "")
              ==> r[i].translationBn == banglaAyahs[i].value)
        && ((i >= |banglaAyahs| || banglaAyahs[i].None? || banglaAyahs[i].value == "")
              ==> r[i].translationBn == NoTranslation)
        && r[i].audioUrl == AudioBase + Pad3(surahNumber) + Pad3(ayahs[i].numberInSurah) + ".mp3"
  {
    forall i | 0 <= i < |ayahs|
      ensures Numbered(ShapeAyahs(surahNumber, ayahs, banglaAyahs, wordIndex)[i].words)
    {
      AyahWordsSource(WordsFor(wordIndex, ayahs[i].numberInSurah), ayahs[i].text);
    }
  }

  /** Two verses with different numbers below 1000 get different recitation files. */
  lemma AyahUrlsDistinct(surahNumber: nat, ayahs: seq<RawAyah>, banglaAyahs: seq<Option<string>>,
                         wordIndex: map<int, seq<RawWord>>, i: int, j: int)
    requires surahNumber < 1000
    requires 0 <= i < |ayahs| && 0 <= j < |ayahs|
    requires 0 <= ayahs[i].numberInSurah < 1000 && 0 <= ayahs[j].numberInSurah < 1000
    requires ayahs[i].numberInSurah != ayahs[j].numberInSurah
    ensures var r := ShapeAyahs(surahNumber, ayahs, banglaAyahs, wordIndex);
      r[i].audioUrl != r[j].audioUrl
  {
    AudioUrlInjective(surahNumber, ayahs[i].numberInSurah, surahNumber, ayahs[j].numberInSurah);
  }

  // ---------------------------------------------------------------------------
  // Surah detail

  datatype Meta = Meta(sourceAr: string, sourceTranslation: string, license: string)

  const DetailMeta: Meta := Meta(
    "Al-Quran Cloud (Uthmani script)",
    "মুহিউদ্দীন খান (Muhiuddin Khan) Bangla Translation",
    "Creative Commons - Public Domain")

  /** The Arabic response of one surah: its description and its verses. */
  datatype RawSurahText = RawSurahText(surah: RawSurah, ayahs: seq<RawAyah>)

  datatype SurahDetail = SurahDetail(surah: Surah, ayahs: seq<Ayah>, meta: Meta)

  /** `fetchSurahDetail(surahNumber)` after its three requests: no result unless both the
      Arabic and the Bangla bodies read with code 200.  A request that is rejected makes
      `Promise.all` reject and the call return null; that is the case `arabic == None`.
      `wordVerses == None` stands only for a word-by-word body that could not be read or
      has no `verses`, which the inner `catch` absorbs: then no verse has service words. */
  function SurahDetailOf(surahNumber: int, arabic: Option<Response<RawSurahText>>,
                         bangla: Option<Response<seq<Option<string>>>>,
                         wordVerses: Option<seq<RawVerse>>): Option<SurahDetail> {
    if arabic.None? || bangla.None? || arabic.value.code != 200 || bangla.value.code != 200 then None
    else
      var s := arabic.value.data.surah;
      var index := if wordVerses.Some? then WordIndex(wordVerses.value) else map[];
      Some(SurahDetail(
        Surah(s.number, s.name, BanglaSurahNameAsWritten(s.englishName), s.englishName, s.numberOfAyahs,
              if s.revelationType == "Meccan" then Makki else Madani),
        ShapeAyahs(surahNumber, arabic.value.data.ayahs, bangla.value.data, index),
        DetailMeta))
  }

  /** A detail exists exactly when both bodies read with code 200; its header is the entry
      the surah list builds from the same description, and its verses are the records of
      the Arabic verses. */
  lemma SurahDetailShape(surahNumber: int, arabic: Option<Response<RawSurahText>>,
                         bangla: Option<Response<seq<Option<string>>>>,
                         wordVerses: Option<seq<RawVerse>>)
    ensures var r := SurahDetailOf(surahNumber, arabic, bangla, wordVerses);
      r.Some? <==> arabic.Some? && bangla.Some? && arabic.value.code == 200 && bangla.value.code == 200
    ensures var r := SurahDetailOf(surahNumber, arabic, bangla, wordVerses);
      r.Some? ==>
        && r.value.surah == SurahOf(arabic.value.data.surah)
        && r.value.ayahs == ShapeAyahs(surahNumber, arabic.value.data.ayahs, bangla.value.data,
                                       if wordVerses.Some? then WordIndex(wordVerses.value) else map[])
        && |r.value.ayahs| == |arabic.value.data.ayahs|
        && r.value.meta == DetailMeta
  {
  }

  // ---------------------------------------------------------------------------
  // Pages

  datatype PageRange = PageRange(surahName: string, ayatRange: string)

  /** `fetchPageAyatMapping(pageNumber)`: only the first two pages are known. */
  function PageAyatMapping(pageNumber: int): Option<PageRange> {
    if pageNumber == 1 then Some(PageRange("Al-Faatiha", "1-7"))
    else if pageNumber == 2 then Some(PageRange("Al-Baqara", "1-5"))
    else None
  }

  /** A page is known exactly when it is page 1 or 2. */
  lemma PageAyatMappingKnown(pageNumber: int)
    ensures PageAyatMapping(pageNumber).Some? <==> pageNumber == 1 || pageNumber == 2
  {
  }

  /** Page 1 is the whole of Al-Faatiha, verses 1 to the count the cached list gives. */
  lemma PageOneIsAlFaatiha()
    ensures var faatiha := CachedSurahList()[0];
      PageAyatMapping(1) == Some(PageRange(faatiha.englishName, "1-" + IntToString(faatiha.ayahCount)))
  {
    assert DigitChar(7) == '7';
    assert IntToString(7) == "7";
    assert "1-" + "7" == "1-7";
  }
}
