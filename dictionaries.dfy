/** The two lookup tables with fallbacks: meanings of common Qur'anic words, used when the
    word-by-word source gives none, and Bangla names of the surahs, keyed by the English
    transliteration the surah list reports.  Each table is given as written (three keys
    carry stray Bengali letters, so no input can reach them) and corrected.  The rest of
    the model uses the tables as written, as the program does; the corrected ones state
    what the program evidently meant.  A table is a function from key to entry: `None`
    is a key the object literal does not have. */
module Dictionaries {
  import opened Strings

  /** The meaning given to a word the table does not know. */
  const GenericMeaning: string := "অর্থ"

  /** The common-word table, entry for entry as written. */
  function CommonWordAsWritten(word: string): (r: Option<string>)
    ensures r.Some? ==> r.value != ""
  {
    match word
    case "ٱللَّهِ" => Some("আল্লাহ")
    case "ٱللَّهُ" => Some("আল্লাহ")
    case "ٱللَّهَ" => Some("আল্লাহকে")
    case "بِسۡمِ" => Some("নামে")
    case "ٱلرَّحۡمَـٰنِ" => Some("পরম করুণাময়")
    case "ٱلرَّحِیمِ" => Some("অতি দয়ালু")
    case "ٱلۡحَمۡদُ" => Some("প্রশংসা")
    case "رَبِّ" => Some("রব/প্রতিপালক")
    case "ٱلۡعَـٰلَمِینَ" => Some("সকল জগতের")
    case "مَـٰلِكِ" => Some("মালিক")
    case "یَوۡمِ" => Some("দিনের")
    case "ٱلدِّینِ" => Some("বিচার")
    case "إِیَّاكَ" => Some("তোমাকেই")
    case "نَعۡبُدُ" => Some("আমরা ইবাদত করি")
    case "وَإِیَّاكَ" => Some("এবং তোমার কাছেই")
    case "نَسۡتَعِینُ" => Some("আমরা সাহায্য চাই")
    case "ٱهۡدِنَا" => Some("আমাদের হেদায়েত দাও")
    case "ٱلصِّرَ ٰ\U{2060}طَ" => Some("পথ")
    case "ٱلۡمُسۡتَقِیمَ" => Some("সরল")
    case "صِرَ ٰ\U{2060}طَ" => Some("পথ")
    case "ٱلَّذِینَ" => Some("যারা/যাদের")
    case "أَنۡعَمۡتَ" => Some("তুমি নেয়ামত দিয়েছ")
    case "عَلَیۡهِمۡ" => Some("তাদের উপর")
    case "غَیۡرِ" => Some("নয়")
    case "ٱلۡمَغۡضُوبِ" => Some("ক্রোধপ্রাপ্ত")
    case "وَلَا" => Some("এবং না")
    case "ٱلضَّاۤلِّینَ" => Some("পথভ্রষ্ট")
    case "مِنَ" => Some("থেকে")
    case "ٱلۡكِتَـٰবِ" => Some("কিতাবের")
    case "فِی" => Some("মধ্যে")
    case "ذَ ٰ\U{2060}لِكَ" => Some("এটি")
    case "هُدࣰى" => Some("হেদায়েত")
    case "لِّلۡمُتَّقِینَ" => Some("মুত্তাকিদের জন্য")
    case "یُؤۡمِنُونَ" => Some("বিশ্বাস করে")
    case "بِٱلۡغَیۡبِ" => Some("অদৃশ্যে")
    case "وَیُقِیمُونَ" => Some("এবং প্রতিষ্ঠা করে")
    case "ٱلصَّلَوٰةَ" => Some("নামায")
    case "وَمِمَّا" => Some("এবং যা")
    case "رَزَقۡنَـٰهُمۡ" => Some("আমরা তাদের রিযিক দিয়েছি")
    case "یُنفِقُونَ" => Some("তারা ব্যয় করে")
    case _ => None
  }

  /** The key written for "al-hamdu" (praise): its eighth character is the Bengali DA,
      U+09A6, where the Arabic DAL, U+062F, belongs. */
  const AlHamduAsWritten: string := "ٱلۡحَمۡদُ"
  const AlHamdu: string := "ٱلۡحَمۡدُ"

  /** The key written for "al-kitabi" (the Book): its tenth character is the Bengali BA,
      U+09AC, where the Arabic BEH, U+0628, belongs. */
  const AlKitabiAsWritten: string := "ٱلۡكِتَـٰবِ"
  const AlKitabi: string := "ٱلۡكِتَـٰبِ"

  /** The common-word table with those two keys spelt in Arabic letters. */
  function CommonWord(word: string): (r: Option<string>)
    ensures r.Some? ==> r.value != ""
  {
    if word == AlHamdu then CommonWordAsWritten(AlHamduAsWritten)
    else if word == AlKitabi then CommonWordAsWritten(AlKitabiAsWritten)
    else if word == AlHamduAsWritten || word == AlKitabiAsWritten then None
    else CommonWordAsWritten(word)
  }

  /** `arabicWord?.trim() || ""`: an absent word is the empty string. */
  function CleanWord(w: Option<string>): string {
    if w.Some? then Trim(w.value) else ""
  }

  /** `if (commonWords[cleanWord]) return commonWords[cleanWord]; return "অর্থ"`: a present,
      non-empty (truthy) entry, or the generic meaning. */
  function MeaningFrom(entry: Option<string>): string {
    if entry.Some? && entry.value != "" then entry.value else GenericMeaning
  }

  /** `getWordMeaningFallback` with the table as written. */
  function WordMeaningFallbackAsWritten(w: Option<string>): string {
    MeaningFrom(CommonWordAsWritten(CleanWord(w)))
  }

  /** `getWordMeaningFallback`, with the corrected table. */
  function WordMeaningFallback(w: Option<string>): string {
    MeaningFrom(CommonWord(CleanWord(w)))
  }

  /** A word whose trimmed form is in the table gets its entry; any other word gets the
      generic meaning, and so does an absent word. */
  lemma WordMeaningLookup(w: string)
    ensures CommonWordAsWritten(Trim(w)).Some? ==>
      WordMeaningFallbackAsWritten(Some(w)) == CommonWordAsWritten(Trim(w)).value
    ensures CommonWordAsWritten(Trim(w)).None? ==> WordMeaningFallbackAsWritten(Some(w)) == GenericMeaning
    ensures WordMeaningFallbackAsWritten(None) == GenericMeaning
  {
  }

  /** The meaning depends only on the trimmed word: surrounding whitespace is ignored. */
  lemma WordMeaningIgnoresWhitespace(w: string)
    ensures WordMeaningFallbackAsWritten(Some(w)) == WordMeaningFallbackAsWritten(Some(Trim(w)))
    ensures WordMeaningFallback(Some(w)) == WordMeaningFallback(Some(Trim(w)))
  {
    TrimIdempotent(w);
  }

  predicate IsBengaliLetter(c: char) { '\U{0980}' <= c <= '\U{09FF}' }

  /** As written, the common-word table does not recognise "al-hamdu" and "al-kitabi":
      their keys contain Bengali letters, which never occur in Arabic text. */
  lemma CommonWordsAsWrittenMiss()
    ensures CommonWordAsWritten(AlHamduAsWritten).Some? && IsBengaliLetter(AlHamduAsWritten[7])
    ensures CommonWordAsWritten(AlKitabiAsWritten).Some? && IsBengaliLetter(AlKitabiAsWritten[9])
    ensures WordMeaningFallbackAsWritten(Some(AlHamdu)) == GenericMeaning
    ensures WordMeaningFallbackAsWritten(Some(AlKitabi)) == GenericMeaning
  {
    TrimNoEdges(AlHamdu);
    TrimNoEdges(AlKitabi);
  }

  /** Corrected, the two words get their meanings, and every other word is looked up as
      before. */
  lemma CommonWordsCorrected(word: string)
    ensures WordMeaningFallback(Some(AlHamdu)) == "প্রশংসা"
    ensures WordMeaningFallback(Some(AlKitabi)) == "কিতাবের"
    ensures word != AlHamdu && word != AlKitabi && word != AlHamduAsWritten && word != AlKitabiAsWritten
      ==> CommonWord(word) == CommonWordAsWritten(word)
  {
    TrimNoEdges(AlHamdu);
    TrimNoEdges(AlKitabi);
  }

  // ---------------------------------------------------------------------------
  // Surah names

  /** The surah-name table, entry for entry as written. */
  function SurahNameAsWritten(englishName: string): (r: Option<string>)
    ensures r.Some? ==> r.value != ""
  {
    match englishName
    case "Al-Faatiha" => Some("ফাতিহা")
    case "Al-Baqara" => Some("বাকারা")
    case "Aal-i-Imraan" => Some("আলে ইমরান")
    case "An-Nisaa" => Some("নিসা")
    case "Al-Maaida" => Some("মায়িদা")
    case "Al-An'aam" => Some("আনআম")
    case "Al-A'raaf" => Some("আরাফ")
    case "Al-Anfaal" => Some("আনফাল")
    case "At-Tawba" => Some("তাওবা")
    case "Yunus" => Some("ইউনুস")
    case "Hud" => Some("হুদ")
    case "Yusuf" => Some("ইউসুফ")
    case "Ar-Ra'd" => Some("রা'দ")
    case "Ibrahim" => Some("ইবরাহীম")
    case "Al-Hijr" => Some("হিজর")
    case "An-Nahl" => Some("নাহল")
    case "Al-Israa" => Some("ইসরা")
    case "Al-Kahf" => Some("কাহফ")
    case "Maryam" => Some("মারইয়াম")
    case "Taa-Haa" => Some("ত্বা-হা")
    case "Al-Anbiyaa" => Some("আম্বিয়া")
    case "Al-Hajj" => Some("হাজ্জ")
    case "Al-Muminoon" => Some("মুমিনুন")
    case "An-Noor" => Some("নূর")
    case "Al-Furqaan" => Some("ফুরকান")
    case "Ash-Shu'araa" => Some("শুআরা")
    case "An-Naml" => Some("নামল")
    case "Al-Qasas" => Some("কাসাস")
    case "Al-Ankaboot" => Some("আনকাবুত")
    case "Ar-Room" => Some("রুম")
    case "Luqman" => Some("লুকমান")
    case "As-Sajda" => Some("সাজদাহ")
    case "Al-Ahzaab" => Some("আহযাব")
    case "Saba" => Some("সাবা")
    case "Faatir" => Some("ফাতির")
    case "Yaseen" => Some("ইয়াসিন")
    case "As-Saaffaat" => Some("সাফফাত")
    case "Saad" => Some("সোয়াদ")
    case "Az-Zumar" => Some("যুমার")
    case "Ghafir" => Some("গাফির")
    case "Fussilat" => Some("ফুসসিলাত")
    case "Ash-Shura" => Some("শুরা")
    case "Az-Zukhruf" => Some("যুখরুফ")
    case "Ad-Dukhaan" => Some("দুখান")
    case "Al-Jaathiya" => Some("জাসিয়া")
    case "Al-Ahqaf" => Some("আহকাফ")
    case "Muhammad" => Some("মুহাম্মদ")
    case "Al-Fath" => Some("ফাতহ")
    case "Al-Hujuraat" => Some("হুজুরাত")
    case "Qaaf" => Some("কাফ")
    case "Adh-Dhaariyat" => Some("যারিয়াত")
    case "At-Tur" => Some("তুর")
    case "An-Najm" => Some("নাজম")
    case "Al-Qamar" => Some("কামার")
    case "Ar-Rahmaan" => Some("রাহমান")
    case "Al-Waaqia" => Some("ওয়াকিয়া")
    case "Al-Hadid" => Some("হাদিদ")
    case "Al-Mujaadila" => Some("মুজাদালা")
    case "Al-Hashr" => Some("হাশর")
    case "Al-Mumtahana" => Some("মুমতাহানা")
    case "As-Saff" => Some("সফ")
    case "Al-Jumu'a" => Some("জুমুআ")
    case "Al-Munaafiqoon" => Some("মুনাফিকুন")
    case "At-Taghaabun" => Some("তাগাবুন")
    case "At-Talaaq" => Some("তালাক")
    case "At-Tahrim" => Some("তাহরিম")
    case "Al-Mulk" => Some("মুলক")
    case "Al-Qalam" => Some("কলম")
    case "Al-Haaqqa" => Some("হাক্কা")
    case "Al-Ma'aarিজ" => Some("মাআরিজ")
    case "Nooh" => Some("নূহ")
    case "Al-Jinn" => Some("জিন্ন")
    case "Al-Muzzammil" => Some("মুযযাম্মিল")
    case "Al-Muddaththir" => Some("মুদ্দাসসির")
    case "Al-Qiyaama" => Some("কিয়ামাহ")
    case "Al-Insaan" => Some("ইনসান")
    case "Al-Mursalaat" => Some("মুরসালাত")
    case "An-Naba" => Some("নাবা")
    case "An-Naazi'aat" => Some("নাযিআত")
    case "Abasa" => Some("আবাসা")
    case "At-Takwir" => Some("তাকভীর")
    case "Al-Infitaar" => Some("ইনফিতার")
    case "Al-Mutaffifin" => Some("মুতাফফিফিন")
    case "Al-Inshiqaaq" => Some("ইনশিকাক")
    case "Al-Burooj" => Some("বুরুজ")
    case "At-Taariq" => Some("তারিক")
    case "Al-A'laa" => Some("আ'লা")
    case "Al-Ghaashiya" => Some("গাশিয়া")
    case "Al-Fajr" => Some("ফজর")
    case "Al-Balad" => Some("বালাদ")
    case "Ash-Shams" => Some("শামস")
    case "Al-Lail" => Some("লাইল")
    case "Ad-Dhuhaa" => Some("দুহা")
    case "Ash-Sharh" => Some("শারহ")
    case "At-Tin" => Some("তীন")
    case "Al-Alaq" => Some("আলাক")
    case "Al-Qadr" => Some("কদর")
    case "Al-Bayyina" => Some("বাইয়্যিনা")
    case "Az-Zalzala" => Some("যিলযাল")
    case "Al-Aadiyaat" => Some("আদিয়াত")
    case "Al-Qaari'a" => Some("কারিআ")
    case "At-Takaathur" => Some("তাকাসুর")
    case "Al-Asr" => Some("আসর")
    case "Al-Humaza" => Some("হুমাযা")
    case "Al-Fil" => Some("ফীল")
    case "Quraish" => Some("কুরাইশ")
    case "Al-Maa'un" => Some("মাউন")
    case "Al-Kawthar" => Some("কাওসার")
    case "Al-Kaafiroon" => Some("কাফিরুন")
    case "An-Nasr" => Some("নাসর")
    case "Al-Masad" => Some("মাসাদ")
    case "Al-Ikhlaas" => Some("ইখলাস")
    case "Al-Falaq" => Some("ফালাক")
    case "An-Naas" => Some("নাস")
    case _ => None
  }

  /** The key written for surah 70: it ends in the Bengali vowel sign I, U+09BF, and the
      Bengali JA, U+099C, where the Latin "ij" belongs. */
  const MaarijAsWritten: string := "Al-Ma'aarিজ"
  const Maarij: string := "Al-Ma'aarij"

  /** The surah-name table with surah 70's key in Latin letters. */
  function SurahName(englishName: string): (r: Option<string>)
    ensures r.Some? ==> r.value != ""
  {
    if englishName == Maarij then SurahNameAsWritten(MaarijAsWritten)
    else if englishName == MaarijAsWritten then None
    else SurahNameAsWritten(englishName)
  }

  /** `surahNames[englishName] || englishName`. */
  function NameFrom(entry: Option<string>, englishName: string): string {
    if entry.Some? && entry.value != "" then entry.value else englishName
  }

  /** `getBanglaSurahName` with the table as written. */
  function BanglaSurahNameAsWritten(englishName: string): string {
    NameFrom(SurahNameAsWritten(englishName), englishName)
  }

  /** `getBanglaSurahName`, with the corrected table. */
  function BanglaSurahName(englishName: string): string {
    NameFrom(SurahName(englishName), englishName)
  }

  /** A known English name gets its Bangla name; any other name is returned unchanged. */
  lemma BanglaSurahNameLookup(englishName: string)
    ensures SurahNameAsWritten(englishName).Some? ==>
      BanglaSurahNameAsWritten(englishName) == SurahNameAsWritten(englishName).value
    ensures SurahNameAsWritten(englishName).None? ==> BanglaSurahNameAsWritten(englishName) == englishName
  {
  }

  /** As written, surah 70's English name is not found and comes back untranslated. */
  lemma SurahNamesAsWrittenMiss()
    ensures SurahNameAsWritten(MaarijAsWritten).Some? && IsBengaliLetter(MaarijAsWritten[9])
    ensures BanglaSurahNameAsWritten(Maarij) == Maarij
  {
  }

  /** Corrected, it gets its Bangla name, and every other name is looked up as before. */
  lemma SurahNamesCorrected(englishName: string)
    ensures BanglaSurahName(Maarij) == "মাআরিজ"
    ensures englishName != Maarij && englishName != MaarijAsWritten
      ==> SurahName(englishName) == SurahNameAsWritten(englishName)
  {
  }
}
