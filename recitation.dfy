/** How a verse is named and where its recitation lives: the `"surah:ayah"` key that the
    player compares and parses, and the zero-padded audio URL that both the player and the
    surah-detail builder construct. */
module Recitation {
  import opened Strings

  /** Mishary bin Rashid Alafasy at 128 kbps. */
  const AudioBase: string := "https://everyayah.com/data/Alafasy_128kbps/"

  /** `String(n).padStart(3, '0')`. */
  function Pad3(n: int): string {
    PadStart(IntToString(n), 3, '0')
  }

  /** The recitation URL of verse `ayah` of surah `surah`. */
  function AudioUrl(surah: int, ayah: int): string {
    AudioBase + Pad3(surah) + Pad3(ayah) + ".mp3"
  }

  /** The key `${surah}:${ayah}`. */
  function AyahKey(surah: int, ayah: int): string {
    IntToString(surah) + ":" + IntToString(ayah)
  }

  /** `const [sStr, aStr] = key.split(":")` followed by `Number(sStr)` and `Number(aStr)`;
      a missing second field is `undefined`, which `Number` turns into NaN (`None`). */
  function ParseAyahKey(key: string): (Option<int>, Option<int>) {
    var fields := Split(key, ':');
    (ParseNumber(fields[0]), if |fields| > 1 then ParseNumber(fields[1]) else None)
  }

  lemma NoColonInInt(i: int)
    ensures ':' !in IntToString(i)
  {
    var d := if i < 0 then -i else i;
    IntToStringShape(i);
    NatToStringDigits(d);
    if i < 0 {
      assert IntToString(i) == "-" + NatToString(d);
    }
  }

  /** Parsing a key gives back the surah and the verse it was built from. */
  lemma AyahKeyRoundTrip(surah: int, ayah: int)
    ensures ParseAyahKey(AyahKey(surah, ayah)) == (Some(surah), Some(ayah))
  {
    var s, a := IntToString(surah), IntToString(ayah);
    NoColonInInt(surah);
    NoColonInInt(ayah);
    assert AyahKey(surah, ayah) == s + [':'] + a;
    SplitAtFirst(s, ':', a);
    SplitNoSeparator(a, ':');
    NumberOfIntToString(surah);
    NumberOfIntToString(ayah);
  }

  /** Different verses have different keys. */
  lemma AyahKeyInjective(s1: int, a1: int, s2: int, a2: int)
    ensures AyahKey(s1, a1) == AyahKey(s2, a2) <==> s1 == s2 && a1 == a2
  {
    AyahKeyRoundTrip(s1, a1);
    AyahKeyRoundTrip(s2, a2);
  }

  lemma NatToStringShort(n: nat)
    requires n < 1000
    ensures |NatToString(n)| <= 3
  {
    if n >= 10 {
      assert |NatToString(n)| == |NatToString(n / 10)| + 1;
      if n / 10 >= 10 {
        assert |NatToString(n / 10)| == |NatToString(n / 100)| + 1;
      }
    }
  }

  /** A non-empty digit string is read by `Number` as its decimal value. */
  lemma ParseDigits(s: string)
    requires s != [] && AllDigits(s)
    ensures ParseNumber(s) == Some(DigitsValue(s))
  {
    assert IsDigit(s[0]) && IsDigit(s[|s| - 1]);
    TrimNoEdges(s);
  }

  /** The padded code is at least three digits, exactly three below 1000, and reads back
      as the number it came from. */
  lemma Pad3Value(n: nat)
    ensures AllDigits(Pad3(n))
    ensures |Pad3(n)| >= 3 && (n < 1000 ==> |Pad3(n)| == 3)
    ensures ParseNumber(Pad3(n)) == Some(n)
  {
    var digits := NatToString(n);
    var p := Pad3(n);
    NatToStringDigits(n);
    PadStartSpec(digits, 3, '0');
    var zeros := Repeat('0', |p| - |digits|);
    assert p == zeros + digits;
    DigitsValueLeadingZeros(zeros, digits);
    DigitsValueOfNatToString(n);
    if n < 1000 {
      NatToStringShort(n);
    }
    ParseDigits(p);
  }

  lemma SplitUrl(base: string, p: string, q: string, suffix: string)
    requires |p| == 3 && |q| == 3
    ensures var u := base + p + q + suffix;
      u[|base|..|base| + 3] == p && u[|base| + 3..|base| + 6] == q
  {
  }

  /** Below 1000 the URL determines the verse: different verses are fetched from
      different files. */
  lemma AudioUrlInjective(s1: nat, a1: nat, s2: nat, a2: nat)
    requires s1 < 1000 && a1 < 1000 && s2 < 1000 && a2 < 1000
    ensures AudioUrl(s1, a1) == AudioUrl(s2, a2) <==> s1 == s2 && a1 == a2
  {
    if AudioUrl(s1, a1) == AudioUrl(s2, a2) {
      Pad3Value(s1);
      Pad3Value(a1);
      Pad3Value(s2);
      Pad3Value(a2);
      SplitUrl(AudioBase, Pad3(s1), Pad3(a1), ".mp3");
      SplitUrl(AudioBase, Pad3(s2), Pad3(a2), ".mp3");
    }
  }

  /** The first verse of the first surah and verse 6 of surah 114. */
  lemma AudioUrlExamples()
    ensures AudioUrl(1, 1) == AudioBase + "001001.mp3"
    ensures AudioUrl(114, 6) == AudioBase + "114006.mp3"
  {
    assert NatToString(1) == "1" && NatToString(6) == "6";
    assert NatToString(11) == "11";
    assert NatToString(114) == "114";
    assert Repeat('0', 2) == "00";
    assert Pad3(1) == "001";
    assert Pad3(6) == "006";
    assert Pad3(114) == "114";
  }
}
