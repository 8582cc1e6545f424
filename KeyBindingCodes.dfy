/** The second copy of the registry, with its own inline list of supported
    codes and of their names. Everything the registry does is the
    `KeyBinding` module applied to `Codes`; this module proves what the
    concrete list guarantees. */
module KeyBindingCodes {
  import opened Common
  import opened Text
  import opened KeyBinding

  // The supported codes and their names, in source order, written as rows of
  // eleven so that each literal stays small.
  const CodesRow0: seq<string> := ["KeyA", "KeyS", "KeyD", "KeyF", "KeyH", "KeyG", "KeyZ", "KeyX", "KeyC", "KeyV", "IntlBackslash"]
  const NamesRow0: seq<string> := ["A", "S", "D", "F", "H", "G", "Z", "X", "C", "V", "IntlBackslash"]
  const CodesRow1: seq<string> := ["KeyB", "KeyQ", "KeyW", "KeyE", "KeyR", "KeyY", "KeyT", "Digit1", "Digit2", "Digit3", "Digit4"]
  const NamesRow1: seq<string> := ["B", "Q", "W", "E", "R", "Y", "T", "1", "2", "3", "4"]
  const CodesRow2: seq<string> := ["Digit6", "Digit5", "Equal", "Digit9", "Digit7", "Minus", "Digit8", "Digit0", "BracketRight", "KeyO", "KeyU"]
  const NamesRow2: seq<string> := ["6", "5", "Equal", "9", "7", "Minus", "8", "0", "BracketRight", "O", "U"]
  const CodesRow3: seq<string> := ["BracketLeft", "KeyI", "KeyP", "Enter", "KeyL", "KeyJ", "Quote", "KeyK", "Semicolon", "Backslash", "Comma"]
  const NamesRow3: seq<string> := ["BracketLeft", "I", "P", "Enter", "L", "J", "Quote", "K", "Semicolon", "Backslash", "Comma"]
  const CodesRow4: seq<string> := ["Slash", "KeyN", "KeyM", "Period", "Tab", "Space", "Backquote", "Backspace", "Escape", "MetaRight", "MetaLeft"]
  const NamesRow4: seq<string> := ["Slash", "N", "M", "Period", "Tab", "Space", "Backquote", "Backspace", "Escape", "MetaRight", "MetaLeft"]
  const CodesRow5: seq<string> := ["ShiftLeft", "CapsLock", "AltLeft", "ControlLeft", "ShiftRight", "AltRight", "ControlRight", "F17", "NumpadDecimal", "NumpadMultiply", "NumpadAdd"]
  const NamesRow5: seq<string> := ["ShiftLeft", "CapsLock", "AltLeft", "ControlLeft", "ShiftRight", "AltRight", "ControlRight", "F17", "NumpadDecimal", "NumpadMultiply", "NumpadAdd"]
  const CodesRow6: seq<string> := ["NumLock", "AudioVolumeUp", "AudioVolumeDown", "AudioVolumeMute", "NumpadDivide", "NumpadEnter", "NumpadSubtract", "F18", "F19", "NumpadEqual", "Numpad0"]
  const NamesRow6: seq<string> := ["NumLock", "AudioVolumeUp", "AudioVolumeDown", "AudioVolumeMute", "NumpadDivide", "NumpadEnter", "NumpadSubtract", "F18", "F19", "NumpadEqual", "Numpad0"]
  const CodesRow7: seq<string> := ["Numpad1", "Numpad2", "Numpad3", "Numpad4", "Num"]
  const NamesRow7: seq<string> := ["Numpad1", "Numpad2", "Numpad3", "Numpad4", "Num"]

  /** `codes`. */
  const Codes: seq<string> :=
    CodesRow0 + CodesRow1 + CodesRow2 + CodesRow3 + CodesRow4 + CodesRow5 + CodesRow6 + CodesRow7

  /** `codesNames`. */
  const CodesNames: seq<string> :=
    NamesRow0 + NamesRow1 + NamesRow2 + NamesRow3 + NamesRow4 + NamesRow5 + NamesRow6 + NamesRow7

  /** `c` is a safe code whose name is `n`. */
  predicate Listed(c: string, n: string) {
    ',' !in c && '-' !in c && Name(c) == n
  }

  /** The codes `cs` are listed under the names `ns`, position by position. */
  predicate AllListed(cs: seq<string>, ns: seq<string>) {
    |cs| == |ns| && forall i :: 0 <= i < |cs| ==> Listed(cs[i], ns[i])
  }

  lemma AllListedConcat(cs: seq<string>, ns: seq<string>, ds: seq<string>, ms: seq<string>)
    requires AllListed(cs, ns) && AllListed(ds, ms)
    ensures AllListed(cs + ds, ns + ms)
  {
    var c, n := cs + ds, ns + ms;
    forall i | 0 <= i < |c|
      ensures Listed(c[i], n[i])
    {
      if i < |cs| {
        assert c[i] == cs[i] && n[i] == ns[i];
      } else {
        assert c[i] == ds[i - |cs|] && n[i] == ms[i - |cs|];
      }
    }
  }

  // ---------------------------------------------------------------------
  // How a name is derived from a code
  // ---------------------------------------------------------------------

  lemma NameOfKeyCode(c: string)
    requires StartsWith(c, "Key") && |c| < 8
    ensures Name(c) == c[3..]
  {
    ReplaceLeading(c, "Key", "");
    ReplaceTooLong(c[3..], "Digit", "");
  }

  lemma NameOfDigitCode(c: string)
    requires StartsWith(c, "Digit") && 'K' !in c
    ensures Name(c) == c[5..]
  {
    ReplaceAbsent(c, "Key", "", 0);
    ReplaceLeading(c, "Digit", "");
  }

  lemma NameOfOtherCode(c: string)
    requires 'K' !in c && ('D' !in c || 't' !in c)
    ensures Name(c) == c
  {
    ReplaceAbsent(c, "Key", "", 0);
    if 'D' !in c {
      ReplaceAbsent(c, "Digit", "", 0);
    } else {
      ReplaceAbsent(c, "Digit", "", 4);
    }
  }

  lemma ListedKey(c: string)
    requires StartsWith(c, "Key") && |c| < 8 && ',' !in c && '-' !in c
    ensures Listed(c, c[3..])
  {
    NameOfKeyCode(c);
  }

  lemma ListedDigit(c: string)
    requires StartsWith(c, "Digit") && 'K' !in c && ',' !in c && '-' !in c
    ensures Listed(c, c[5..])
  {
    NameOfDigitCode(c);
  }

  lemma ListedOther(c: string)
    requires 'K' !in c && ('D' !in c || 't' !in c) && ',' !in c && '-' !in c
    ensures Listed(c, c)
  {
    NameOfOtherCode(c);
  }

  // ---------------------------------------------------------------------
  // The listed codes, one at a time and then row by row
  // ---------------------------------------------------------------------

  lemma ListedKeyA()
    ensures Listed(CodesRow0[0], NamesRow0[0])
  {
    ListedKey(CodesRow0[0]);
  }

  lemma ListedKeyS()
    ensures Listed(CodesRow0[1], NamesRow0[1])
  {
    ListedKey(CodesRow0[1]);
  }

  lemma ListedKeyD()
    ensures Listed(CodesRow0[2], NamesRow0[2])
  {
    ListedKey(CodesRow0[2]);
  }

  lemma ListedKeyF()
    ensures Listed(CodesRow0[3], NamesRow0[3])
  {
    ListedKey(CodesRow0[3]);
  }

  lemma ListedKeyH()
    ensures Listed(CodesRow0[4], NamesRow0[4])
  {
    ListedKey(CodesRow0[4]);
  }

  lemma ListedKeyG()
    ensures Listed(CodesRow0[5], NamesRow0[5])
  {
    ListedKey(CodesRow0[5]);
  }

  lemma ListedKeyZ()
    ensures Listed(CodesRow0[6], NamesRow0[6])
  {
    ListedKey(CodesRow0[6]);
  }

  lemma ListedKeyX()
    ensures Listed(CodesRow0[7], NamesRow0[7])
  {
    ListedKey(CodesRow0[7]);
  }

  lemma ListedKeyC()
    ensures Listed(CodesRow0[8], NamesRow0[8])
  {
    ListedKey(CodesRow0[8]);
  }

  lemma ListedKeyV()
    ensures Listed(CodesRow0[9], NamesRow0[9])
  {
    ListedKey(CodesRow0[9]);
  }

  lemma ListedIntlBackslash()
    ensures Listed(CodesRow0[10], NamesRow0[10])
  {
    ListedOther(CodesRow0[10]);
  }

  lemma ListedKeyB()
    ensures Listed(CodesRow1[0], NamesRow1[0])
  {
    ListedKey(CodesRow1[0]);
  }

  lemma ListedKeyQ()
    ensures Listed(CodesRow1[1], NamesRow1[1])
  {
    ListedKey(CodesRow1[1]);
  }

  lemma ListedKeyW()
    ensures Listed(CodesRow1[2], NamesRow1[2])
  {
    ListedKey(CodesRow1[2]);
  }

  lemma ListedKeyE()
    ensures Listed(CodesRow1[3], NamesRow1[3])
  {
    ListedKey(CodesRow1[3]);
  }

  lemma ListedKeyR()
    ensures Listed(CodesRow1[4], NamesRow1[4])
  {
    ListedKey(CodesRow1[4]);
  }

  lemma ListedKeyY()
    ensures Listed(CodesRow1[5], NamesRow1[5])
  {
    ListedKey(CodesRow1[5]);
  }

  lemma ListedKeyT()
    ensures Listed(CodesRow1[6], NamesRow1[6])
  {
    ListedKey(CodesRow1[6]);
  }

  lemma ListedDigit1()
    ensures Listed(CodesRow1[7], NamesRow1[7])
  {
    ListedDigit(CodesRow1[7]);
  }

  lemma ListedDigit2()
    ensures Listed(CodesRow1[8], NamesRow1[8])
  {
    ListedDigit(CodesRow1[8]);
  }

  lemma ListedDigit3()
    ensures Listed(CodesRow1[9], NamesRow1[9])
  {
    ListedDigit(CodesRow1[9]);
  }

  lemma ListedDigit4()
    ensures Listed(CodesRow1[10], NamesRow1[10])
  {
    ListedDigit(CodesRow1[10]);
  }

  lemma ListedDigit6()
    ensures Listed(CodesRow2[0], NamesRow2[0])
  {
    ListedDigit(CodesRow2[0]);
  }

  lemma ListedDigit5()
    ensures Listed(CodesRow2[1], NamesRow2[1])
  {
    ListedDigit(CodesRow2[1]);
  }

  lemma ListedEqual()
    ensures Listed(CodesRow2[2], NamesRow2[2])
  {
    ListedOther(CodesRow2[2]);
  }

  lemma ListedDigit9()
    ensures Listed(CodesRow2[3], NamesRow2[3])
  {
    ListedDigit(CodesRow2[3]);
  }

  lemma ListedDigit7()
    ensures Listed(CodesRow2[4], NamesRow2[4])
  {
    ListedDigit(CodesRow2[4]);
  }

  lemma ListedMinus()
    ensures Listed(CodesRow2[5], NamesRow2[5])
  {
    ListedOther(CodesRow2[5]);
  }

  lemma ListedDigit8()
    ensures Listed(CodesRow2[6], NamesRow2[6])
  {
    ListedDigit(CodesRow2[6]);
  }

  lemma ListedDigit0()
    ensures Listed(CodesRow2[7], NamesRow2[7])
  {
    ListedDigit(CodesRow2[7]);
  }

  lemma ListedBracketRight()
    ensures Listed(CodesRow2[8], NamesRow2[8])
  {
    ListedOther(CodesRow2[8]);
  }

  lemma ListedKeyO()
    ensures Listed(CodesRow2[9], NamesRow2[9])
  {
    ListedKey(CodesRow2[9]);
  }

  lemma ListedKeyU()
    ensures Listed(CodesRow2[10], NamesRow2[10])
  {
    ListedKey(CodesRow2[10]);
  }

  lemma ListedBracketLeft()
    ensures Listed(CodesRow3[0], NamesRow3[0])
  {
    ListedOther(CodesRow3[0]);
  }

  lemma ListedKeyI()
    ensures Listed(CodesRow3[1], NamesRow3[1])
  {
    ListedKey(CodesRow3[1]);
  }

  lemma ListedKeyP()
    ensures Listed(CodesRow3[2], NamesRow3[2])
  {
    ListedKey(CodesRow3[2]);
  }

  lemma ListedEnter()
    ensures Listed(CodesRow3[3], NamesRow3[3])
  {
    ListedOther(CodesRow3[3]);
  }

  lemma ListedKeyL()
    ensures Listed(CodesRow3[4], NamesRow3[4])
  {
    ListedKey(CodesRow3[4]);
  }

  lemma ListedKeyJ()
    ensures Listed(CodesRow3[5], NamesRow3[5])
  {
    ListedKey(CodesRow3[5]);
  }

  lemma ListedQuote()
    ensures Listed(CodesRow3[6], NamesRow3[6])
  {
    ListedOther(CodesRow3[6]);
  }

  lemma ListedKeyK()
    ensures Listed(CodesRow3[7], NamesRow3[7])
  {
    ListedKey(CodesRow3[7]);
  }

  lemma ListedSemicolon()
    ensures Listed(CodesRow3[8], NamesRow3[8])
  {
    ListedOther(CodesRow3[8]);
  }

  lemma ListedBackslash()
    ensures Listed(CodesRow3[9], NamesRow3[9])
  {
    ListedOther(CodesRow3[9]);
  }

  lemma ListedComma()
    ensures Listed(CodesRow3[10], NamesRow3[10])
  {
    ListedOther(CodesRow3[10]);
  }

  lemma ListedSlash()
    ensures Listed(CodesRow4[0], NamesRow4[0])
  {
    ListedOther(CodesRow4[0]);
  }

  lemma ListedKeyN()
    ensures Listed(CodesRow4[1], NamesRow4[1])
  {
    ListedKey(CodesRow4[1]);
  }

  lemma ListedKeyM()
    ensures Listed(CodesRow4[2], NamesRow4[2])
  {
    ListedKey(CodesRow4[2]);
  }

  lemma ListedPeriod()
    ensures Listed(CodesRow4[3], NamesRow4[3])
  {
    ListedOther(CodesRow4[3]);
  }

  lemma ListedTab()
    ensures Listed(CodesRow4[4], NamesRow4[4])
  {
    ListedOther(CodesRow4[4]);
  }

  lemma ListedSpace()
    ensures Listed(CodesRow4[5], NamesRow4[5])
  {
    ListedOther(CodesRow4[5]);
  }

  lemma ListedBackquote()
    ensures Listed(CodesRow4[6], NamesRow4[6])
  {
    ListedOther(CodesRow4[6]);
  }

  lemma ListedBackspace()
    ensures Listed(CodesRow4[7], NamesRow4[7])
  {
    ListedOther(CodesRow4[7]);
  }

  lemma ListedEscape()
    ensures Listed(CodesRow4[8], NamesRow4[8])
  {
    ListedOther(CodesRow4[8]);
  }

  lemma ListedMetaRight()
    ensures Listed(CodesRow4[9], NamesRow4[9])
  {
    ListedOther(CodesRow4[9]);
  }

  lemma ListedMetaLeft()
    ensures Listed(CodesRow4[10], NamesRow4[10])
  {
    ListedOther(CodesRow4[10]);
  }

  lemma ListedShiftLeft()
    ensures Listed(CodesRow5[0], NamesRow5[0])
  {
    ListedOther(CodesRow5[0]);
  }

  lemma ListedCapsLock()
    ensures Listed(CodesRow5[1], NamesRow5[1])
  {
    ListedOther(CodesRow5[1]);
  }

  lemma ListedAltLeft()
    ensures Listed(CodesRow5[2], NamesRow5[2])
  {
    ListedOther(CodesRow5[2]);
  }

  lemma ListedControlLeft()
    ensures Listed(CodesRow5[3], NamesRow5[3])
  {
    ListedOther(CodesRow5[3]);
  }

  lemma ListedShiftRight()
    ensures Listed(CodesRow5[4], NamesRow5[4])
  {
    ListedOther(CodesRow5[4]);
  }

  lemma ListedAltRight()
    ensures Listed(CodesRow5[5], NamesRow5[5])
  {
    ListedOther(CodesRow5[5]);
  }

  lemma ListedControlRight()
    ensures Listed(CodesRow5[6], NamesRow5[6])
  {
    ListedOther(CodesRow5[6]);
  }

  lemma ListedF17()
    ensures Listed(CodesRow5[7], NamesRow5[7])
  {
    ListedOther(CodesRow5[7]);
  }

  lemma ListedNumpadDecimal()
    ensures Listed(CodesRow5[8], NamesRow5[8])
  {
    ListedOther(CodesRow5[8]);
  }

  lemma ListedNumpadMultiply()
    ensures Listed(CodesRow5[9], NamesRow5[9])
  {
    ListedOther(CodesRow5[9]);
  }

  lemma ListedNumpadAdd()
    ensures Listed(CodesRow5[10], NamesRow5[10])
  {
    ListedOther(CodesRow5[10]);
  }

  lemma ListedNumLock()
    ensures Listed(CodesRow6[0], NamesRow6[0])
  {
    ListedOther(CodesRow6[0]);
  }

  lemma ListedAudioVolumeUp()
    ensures Listed(CodesRow6[1], NamesRow6[1])
  {
    ListedOther(CodesRow6[1]);
  }

  lemma ListedAudioVolumeDown()
    ensures Listed(CodesRow6[2], NamesRow6[2])
  {
    ListedOther(CodesRow6[2]);
  }

  lemma ListedAudioVolumeMute()
    ensures Listed(CodesRow6[3], NamesRow6[3])
  {
    ListedOther(CodesRow6[3]);
  }

  lemma ListedNumpadDivide()
    ensures Listed(CodesRow6[4], NamesRow6[4])
  {
    ListedOther(CodesRow6[4]);
  }

  lemma ListedNumpadEnter()
    ensures Listed(CodesRow6[5], NamesRow6[5])
  {
    ListedOther(CodesRow6[5]);
  }

  lemma ListedNumpadSubtract()
    ensures Listed(CodesRow6[6], NamesRow6[6])
  {
    ListedOther(CodesRow6[6]);
  }

  lemma ListedF18()
    ensures Listed(CodesRow6[7], NamesRow6[7])
  {
    ListedOther(CodesRow6[7]);
  }

  lemma ListedF19()
    ensures Listed(CodesRow6[8], NamesRow6[8])
  {
    ListedOther(CodesRow6[8]);
  }

  lemma ListedNumpadEqual()
    ensures Listed(CodesRow6[9], NamesRow6[9])
  {
    ListedOther(CodesRow6[9]);
  }

  lemma ListedNumpad0()
    ensures Listed(CodesRow6[10], NamesRow6[10])
  {
    ListedOther(CodesRow6[10]);
  }

  lemma ListedNumpad1()
    ensures Listed(CodesRow7[0], NamesRow7[0])
  {
    ListedOther(CodesRow7[0]);
  }

  lemma ListedNumpad2()
    ensures Listed(CodesRow7[1], NamesRow7[1])
  {
    ListedOther(CodesRow7[1]);
  }

  lemma ListedNumpad3()
    ensures Listed(CodesRow7[2], NamesRow7[2])
  {
    ListedOther(CodesRow7[2]);
  }

  lemma ListedNumpad4()
    ensures Listed(CodesRow7[3], NamesRow7[3])
  {
    ListedOther(CodesRow7[3]);
  }

  lemma ListedNum()
    ensures Listed(CodesRow7[4], NamesRow7[4])
  {
    ListedOther(CodesRow7[4]);
  }

  lemma RowListed0()
    ensures AllListed(CodesRow0, NamesRow0)
  {
    forall j | 0 <= j < |CodesRow0|
      ensures Listed(CodesRow0[j], NamesRow0[j])
    {
      if j == 0 {
        ListedKeyA();
      } else if j == 1 {
        ListedKeyS();
      } else if j == 2 {
        ListedKeyD();
      } else if j == 3 {
        ListedKeyF();
      } else if j == 4 {
        ListedKeyH();
      } else if j == 5 {
        ListedKeyG();
      } else if j == 6 {
        ListedKeyZ();
      } else if j == 7 {
        ListedKeyX();
      } else if j == 8 {
        ListedKeyC();
      } else if j == 9 {
        ListedKeyV();
      } else {
        ListedIntlBackslash();
      }
    }
  }

  lemma RowListed1()
    ensures AllListed(CodesRow1, NamesRow1)
  {
    forall j | 0 <= j < |CodesRow1|
      ensures Listed(CodesRow1[j], NamesRow1[j])
    {
      if j == 0 {
        ListedKeyB();
      } else if j == 1 {
        ListedKeyQ();
      } else if j == 2 {
        ListedKeyW();
      } else if j == 3 {
        ListedKeyE();
      } else if j == 4 {
        ListedKeyR();
      } else if j == 5 {
        ListedKeyY();
      } else if j == 6 {
        ListedKeyT();
      } else if j == 7 {
        ListedDigit1();
      } else if j == 8 {
        ListedDigit2();
      } else if j == 9 {
        ListedDigit3();
      } else {
        ListedDigit4();
      }
    }
  }

  lemma RowListed2()
    ensures AllListed(CodesRow2, NamesRow2)
  {
    forall j | 0 <= j < |CodesRow2|
      ensures Listed(CodesRow2[j], NamesRow2[j])
    {
      if j == 0 {
        ListedDigit6();
      } else if j == 1 {
        ListedDigit5();
      } else if j == 2 {
        ListedEqual();
      } else if j == 3 {
        ListedDigit9();
      } else if j == 4 {
        ListedDigit7();
      } else if j == 5 {
        ListedMinus();
      } else if j == 6 {
        ListedDigit8();
      } else if j == 7 {
        ListedDigit0();
      } else if j == 8 {
        ListedBracketRight();
      } else if j == 9 {
        ListedKeyO();
      } else {
        ListedKeyU();
      }
    }
  }

  lemma RowListed3()
    ensures AllListed(CodesRow3, NamesRow3)
  {
    forall j | 0 <= j < |CodesRow3|
      ensures Listed(CodesRow3[j], NamesRow3[j])
    {
      if j == 0 {
        ListedBracketLeft();
      } else if j == 1 {
        ListedKeyI();
      } else if j == 2 {
        ListedKeyP();
      } else if j == 3 {
        ListedEnter();
      } else if j == 4 {
        ListedKeyL();
      } else if j == 5 {
        ListedKeyJ();
      } else if j == 6 {
        ListedQuote();
      } else if j == 7 {
        ListedKeyK();
      } else if j == 8 {
        ListedSemicolon();
      } else if j == 9 {
        ListedBackslash();
      } else {
        ListedComma();
      }
    }
  }

  lemma RowListed4()
    ensures AllListed(CodesRow4, NamesRow4)
  {
    forall j | 0 <= j < |CodesRow4|
      ensures Listed(CodesRow4[j], NamesRow4[j])
    {
      if j == 0 {
        ListedSlash();
      } else if j == 1 {
        ListedKeyN();
      } else if j == 2 {
        ListedKeyM();
      } else if j == 3 {
        ListedPeriod();
      } else if j == 4 {
        ListedTab();
      } else if j == 5 {
        ListedSpace();
      } else if j == 6 {
        ListedBackquote();
      } else if j == 7 {
        ListedBackspace();
      } else if j == 8 {
        ListedEscape();
      } else if j == 9 {
        ListedMetaRight();
      } else {
        ListedMetaLeft();
      }
    }
  }

  lemma RowListed5()
    ensures AllListed(CodesRow5, NamesRow5)
  {
    forall j | 0 <= j < |CodesRow5|
      ensures Listed(CodesRow5[j], NamesRow5[j])
    {
      if j == 0 {
        ListedShiftLeft();
      } else if j == 1 {
        ListedCapsLock();
      } else if j == 2 {
        ListedAltLeft();
      } else if j == 3 {
        ListedControlLeft();
      } else if j == 4 {
        ListedShiftRight();
      } else if j == 5 {
        ListedAltRight();
      } else if j == 6 {
        ListedControlRight();
      } else if j == 7 {
        ListedF17();
      } else if j == 8 {
        ListedNumpadDecimal();
      } else if j == 9 {
        ListedNumpadMultiply();
      } else {
        ListedNumpadAdd();
      }
    }
  }

  lemma RowListed6()
    ensures AllListed(CodesRow6, NamesRow6)
  {
    forall j | 0 <= j < |CodesRow6|
      ensures Listed(CodesRow6[j], NamesRow6[j])
    {
      if j == 0 {
        ListedNumLock();
      } else if j == 1 {
        ListedAudioVolumeUp();
      } else if j == 2 {
        ListedAudioVolumeDown();
      } else if j == 3 {
        ListedAudioVolumeMute();
      } else if j == 4 {
        ListedNumpadDivide();
      } else if j == 5 {
        ListedNumpadEnter();
      } else if j == 6 {
        ListedNumpadSubtract();
      } else if j == 7 {
        ListedF18();
      } else if j == 8 {
        ListedF19();
      } else if j == 9 {
        ListedNumpadEqual();
      } else {
        ListedNumpad0();
      }
    }
  }

  lemma RowListed7()
    ensures AllListed(CodesRow7, NamesRow7)
  {
    forall j | 0 <= j < |CodesRow7|
      ensures Listed(CodesRow7[j], NamesRow7[j])
    {
      if j == 0 {
        ListedNumpad1();
      } else if j == 1 {
        ListedNumpad2();
      } else if j == 2 {
        ListedNumpad3();
      } else if j == 3 {
        ListedNumpad4();
      } else {
        ListedNum();
      }
    }
  }

  // ---------------------------------------------------------------------
  // No two names coincide, checked row against row
  // ---------------------------------------------------------------------

  predicate Distinct(s: seq<string>) {
    forall i, j :: 0 <= i < j < |s| ==> s[i] != s[j]
  }

  /** No element of `a` occurs in `b`. */
  predicate Apart(a: seq<string>, b: seq<string>) {
    forall i, j :: 0 <= i < |a| && 0 <= j < |b| ==> a[i] != b[j]
  }

  lemma DistinctConcat(a: seq<string>, b: seq<string>)
    requires Distinct(a) && Distinct(b) && Apart(a, b)
    ensures Distinct(a + b)
  {
    forall i, j | 0 <= i < j < |a + b|
      ensures (a + b)[i] != (a + b)[j]
    {
      if j < |a| {
        assert (a + b)[i] == a[i] && (a + b)[j] == a[j];
      } else if i < |a| {
        assert (a + b)[i] == a[i] && (a + b)[j] == b[j - |a|];
      } else {
        assert (a + b)[i] == b[i - |a|] && (a + b)[j] == b[j - |a|];
      }
    }
  }

  lemma ApartConcat(a: seq<string>, b: seq<string>, c: seq<string>)
    requires Apart(a, c) && Apart(b, c)
    ensures Apart(a + b, c)
  {
    forall i, j | 0 <= i < |a + b| && 0 <= j < |c|
      ensures (a + b)[i] != c[j]
    {
      if i < |a| {
        assert (a + b)[i] == a[i];
      } else {
        assert (a + b)[i] == b[i - |a|];
      }
    }
  }

  lemma RowDistinct0()
    ensures Distinct(NamesRow0)
  {
    var r := NamesRow0;
    forall i, j | 0 <= i < j < |r|
      ensures r[i] != r[j]
    {
      if |r[i]| == |r[j]| {
        assert r[i][0] != r[j][0];
      }
    }
  }

  lemma RowDistinct1()
    ensures Distinct(NamesRow1)
  {
    var r := NamesRow1;
    forall i, j | 0 <= i < j < |r|
      ensures r[i] != r[j]
    {
      if |r[i]| == |r[j]| {
        assert r[i][0] != r[j][0];
      }
    }
  }

  lemma RowDistinct2()
    ensures Distinct(NamesRow2)
  {
    var r := NamesRow2;
    forall i, j | 0 <= i < j < |r|
      ensures r[i] != r[j]
    {
      if |r[i]| == |r[j]| {
        assert r[i][0] != r[j][0];
      }
    }
  }

  lemma RowDistinct3()
    ensures Distinct(NamesRow3)
  {
    var r := NamesRow3;
    forall i, j | 0 <= i < j < |r|
      ensures r[i] != r[j]
    {
      if |r[i]| == |r[j]| {
        assert r[i][0] != r[j][0];
      }
    }
  }

  lemma RowDistinct4()
    ensures Distinct(NamesRow4)
  {
    var r := NamesRow4;
    forall i, j | 0 <= i < j < |r|
      ensures r[i] != r[j]
    {
      if |r[i]| == |r[j]| {
        assert r[i][0] != r[j][0] || r[i][1] != r[j][1] || r[i][4] != r[j][4];
      }
    }
  }

  lemma RowDistinct5()
    ensures Distinct(NamesRow5)
  {
    var r := NamesRow5;
    forall i, j | 0 <= i < j < |r|
      ensures r[i] != r[j]
    {
      if |r[i]| == |r[j]| {
        assert r[i][0] != r[j][0];
      }
    }
  }

  lemma RowDistinct6()
    ensures Distinct(NamesRow6)
  {
    var r := NamesRow6;
    forall i, j | 0 <= i < j < |r|
      ensures r[i] != r[j]
    {
      if |r[i]| == |r[j]| {
        assert r[i][0] != r[j][0] || r[i][2] != r[j][2] || r[i][3] != r[j][3] || r[i][7] != r[j][7] || r[i][11] != r[j][11];
      }
    }
  }

  lemma RowDistinct7()
    ensures Distinct(NamesRow7)
  {
    var r := NamesRow7;
    forall i, j | 0 <= i < j < |r|
      ensures r[i] != r[j]
    {
      if |r[i]| == |r[j]| {
        assert r[i][0] != r[j][0] || r[i][6] != r[j][6];
      }
    }
  }

  lemma RowsApart01()
    ensures Apart(NamesRow0, NamesRow1)
  {
    var r, r' := NamesRow0, NamesRow1;
    forall i, j | 0 <= i < |r| && 0 <= j < |r'|
      ensures r[i] != r'[j]
    {
      if |r[i]| == |r'[j]| {
        assert r[i][0] != r'[j][0];
      }
    }
  }

  lemma RowsApart02()
    ensures Apart(NamesRow0, NamesRow2)
  {
    var r, r' := NamesRow0, NamesRow2;
    forall i, j | 0 <= i < |r| && 0 <= j < |r'|
      ensures r[i] != r'[j]
    {
      if |r[i]| == |r'[j]| {
        assert r[i][0] != r'[j][0];
      }
    }
  }

  lemma RowsApart03()
    ensures Apart(NamesRow0, NamesRow3)
  {
    var r, r' := NamesRow0, NamesRow3;
    forall i, j | 0 <= i < |r| && 0 <= j < |r'|
      ensures r[i] != r'[j]
    {
      if |r[i]| == |r'[j]| {
        assert r[i][0] != r'[j][0];
      }
    }
  }

  lemma RowsApart04()
    ensures Apart(NamesRow0, NamesRow4)
  {
    var r, r' := NamesRow0, NamesRow4;
    forall i, j | 0 <= i < |r| && 0 <= j < |r'|
      ensures r[i] != r'[j]
    {
      if |r[i]| == |r'[j]| {
        assert r[i][0] != r'[j][0];
      }
    }
  }

  lemma RowsApart05()
    ensures Apart(NamesRow0, NamesRow5)
  {
    var r, r' := NamesRow0, NamesRow5;
    forall i, j | 0 <= i < |r| && 0 <= j < |r'|
      ensures r[i] != r'[j]
    {
      if |r[i]| == |r'[j]| {
        assert r[i][0] != r'[j][0];
      }
    }
  }

  lemma RowsApart06()
    ensures Apart(NamesRow0, NamesRow6)
  {
    var r, r' := NamesRow0, NamesRow6;
    forall i, j | 0 <= i < |r| && 0 <= j < |r'|
      ensures r[i] != r'[j]
    {
      if |r[i]| == |r'[j]| {
        assert r[i][0] != r'[j][0];
      }
    }
  }

  lemma RowsApart07()
    ensures Apart(NamesRow0, NamesRow7)
  {
    var r, r' := NamesRow0, NamesRow7;
    forall i, j | 0 <= i < |r| && 0 <= j < |r'|
      ensures r[i] != r'[j]
    {
      assert |r[i]| != |r'[j]|;
    }
  }

  lemma RowsApart12()
    ensures Apart(NamesRow1, NamesRow2)
  {
    var r, r' := NamesRow1, NamesRow2;
    forall i, j | 0 <= i < |r| && 0 <= j < |r'|
      ensures r[i] != r'[j]
    {
      if |r[i]| == |r'[j]| {
        assert r[i][0] != r'[j][0];
      }
    }
  }

  lemma RowsApart13()
    ensures Apart(NamesRow1, NamesRow3)
  {
    var r, r' := NamesRow1, NamesRow3;
    forall i, j | 0 <= i < |r| && 0 <= j < |r'|
      ensures r[i] != r'[j]
    {
      if |r[i]| == |r'[j]| {
        assert r[i][0] != r'[j][0];
      }
    }
  }

  lemma RowsApart14()
    ensures Apart(NamesRow1, NamesRow4)
  {
    var r, r' := NamesRow1, NamesRow4;
    forall i, j | 0 <= i < |r| && 0 <= j < |r'|
      ensures r[i] != r'[j]
    {
      if |r[i]| == |r'[j]| {
        assert r[i][0] != r'[j][0];
      }
    }
  }

  lemma RowsApart15()
    ensures Apart(NamesRow1, NamesRow5)
  {
    var r, r' := NamesRow1, NamesRow5;
    forall i, j | 0 <= i < |r| && 0 <= j < |r'|
      ensures r[i] != r'[j]
    {
      assert |r[i]| != |r'[j]|;
    }
  }

  lemma RowsApart16()
    ensures Apart(NamesRow1, NamesRow6)
  {
    var r, r' := NamesRow1, NamesRow6;
    forall i, j | 0 <= i < |r| && 0 <= j < |r'|
      ensures r[i] != r'[j]
    {
      assert |r[i]| != |r'[j]|;
    }
  }

  lemma RowsApart17()
    ensures Apart(NamesRow1, NamesRow7)
  {
    var r, r' := NamesRow1, NamesRow7;
    forall i, j | 0 <= i < |r| && 0 <= j < |r'|
      ensures r[i] != r'[j]
    {
      assert |r[i]| != |r'[j]|;
    }
  }

  lemma RowsApart23()
    ensures Apart(NamesRow2, NamesRow3)
  {
    var r, r' := NamesRow2, NamesRow3;
    forall i, j | 0 <= i < |r| && 0 <= j < |r'|
      ensures r[i] != r'[j]
    {
      if |r[i]| == |r'[j]| {
        assert r[i][0] != r'[j][0] || r[i][1] != r'[j][1];
      }
    }
  }

  lemma RowsApart24()
    ensures Apart(NamesRow2, NamesRow4)
  {
    var r, r' := NamesRow2, NamesRow4;
    forall i, j | 0 <= i < |r| && 0 <= j < |r'|
      ensures r[i] != r'[j]
    {
      if |r[i]| == |r'[j]| {
        assert r[i][0] != r'[j][0];
      }
    }
  }

  lemma RowsApart25()
    ensures Apart(NamesRow2, NamesRow5)
  {
    var r, r' := NamesRow2, NamesRow5;
    forall i, j | 0 <= i < |r| && 0 <= j < |r'|
      ensures r[i] != r'[j]
    {
      if |r[i]| == |r'[j]| {
        assert r[i][0] != r'[j][0];
      }
    }
  }

  lemma RowsApart26()
    ensures Apart(NamesRow2, NamesRow6)
  {
    var r, r' := NamesRow2, NamesRow6;
    forall i, j | 0 <= i < |r| && 0 <= j < |r'|
      ensures r[i] != r'[j]
    {
      if |r[i]| == |r'[j]| {
        assert r[i][0] != r'[j][0];
      }
    }
  }

  lemma RowsApart27()
    ensures Apart(NamesRow2, NamesRow7)
  {
    var r, r' := NamesRow2, NamesRow7;
    forall i, j | 0 <= i < |r| && 0 <= j < |r'|
      ensures r[i] != r'[j]
    {
      assert |r[i]| != |r'[j]|;
    }
  }

  lemma RowsApart34()
    ensures Apart(NamesRow3, NamesRow4)
  {
    var r, r' := NamesRow3, NamesRow4;
    forall i, j | 0 <= i < |r| && 0 <= j < |r'|
      ensures r[i] != r'[j]
    {
      if |r[i]| == |r'[j]| {
        assert r[i][0] != r'[j][0] || r[i][4] != r'[j][4] || r[i][5] != r'[j][5];
      }
    }
  }

  lemma RowsApart35()
    ensures Apart(NamesRow3, NamesRow5)
  {
    var r, r' := NamesRow3, NamesRow5;
    forall i, j | 0 <= i < |r| && 0 <= j < |r'|
      ensures r[i] != r'[j]
    {
      if |r[i]| == |r'[j]| {
        assert r[i][0] != r'[j][0] || r[i][1] != r'[j][1];
      }
    }
  }

  lemma RowsApart36()
    ensures Apart(NamesRow3, NamesRow6)
  {
    var r, r' := NamesRow3, NamesRow6;
    forall i, j | 0 <= i < |r| && 0 <= j < |r'|
      ensures r[i] != r'[j]
    {
      if |r[i]| == |r'[j]| {
        assert r[i][0] != r'[j][0];
      }
    }
  }

  lemma RowsApart37()
    ensures Apart(NamesRow3, NamesRow7)
  {
    var r, r' := NamesRow3, NamesRow7;
    forall i, j | 0 <= i < |r| && 0 <= j < |r'|
      ensures r[i] != r'[j]
    {
      assert |r[i]| != |r'[j]|;
    }
  }

  lemma RowsApart45()
    ensures Apart(NamesRow4, NamesRow5)
  {
    var r, r' := NamesRow4, NamesRow5;
    forall i, j | 0 <= i < |r| && 0 <= j < |r'|
      ensures r[i] != r'[j]
    {
      if |r[i]| == |r'[j]| {
        assert r[i][0] != r'[j][0];
      }
    }
  }

  lemma RowsApart46()
    ensures Apart(NamesRow4, NamesRow6)
  {
    var r, r' := NamesRow4, NamesRow6;
    forall i, j | 0 <= i < |r| && 0 <= j < |r'|
      ensures r[i] != r'[j]
    {
      if |r[i]| == |r'[j]| {
        assert r[i][0] != r'[j][0];
      }
    }
  }

  lemma RowsApart47()
    ensures Apart(NamesRow4, NamesRow7)
  {
    var r, r' := NamesRow4, NamesRow7;
    forall i, j | 0 <= i < |r| && 0 <= j < |r'|
      ensures r[i] != r'[j]
    {
      if |r[i]| == |r'[j]| {
        assert r[i][0] != r'[j][0];
      }
    }
  }

  lemma RowsApart56()
    ensures Apart(NamesRow5, NamesRow6)
  {
    var r, r' := NamesRow5, NamesRow6;
    forall i, j | 0 <= i < |r| && 0 <= j < |r'|
      ensures r[i] != r'[j]
    {
      if |r[i]| == |r'[j]| {
        assert r[i][0] != r'[j][0] || r[i][2] != r'[j][2] || r[i][6] != r'[j][6];
      }
    }
  }

  lemma RowsApart57()
    ensures Apart(NamesRow5, NamesRow7)
  {
    var r, r' := NamesRow5, NamesRow7;
    forall i, j | 0 <= i < |r| && 0 <= j < |r'|
      ensures r[i] != r'[j]
    {
      if |r[i]| == |r'[j]| {
        assert r[i][0] != r'[j][0];
      }
    }
  }

  lemma RowsApart67()
    ensures Apart(NamesRow6, NamesRow7)
  {
    var r, r' := NamesRow6, NamesRow7;
    forall i, j | 0 <= i < |r| && 0 <= j < |r'|
      ensures r[i] != r'[j]
    {
      if |r[i]| == |r'[j]| {
        assert r[i][0] != r'[j][0] || r[i][3] != r'[j][3] || r[i][6] != r'[j][6];
      }
    }
  }

  lemma NamesDistinct()
    ensures Distinct(CodesNames)
  {
    RowDistinct0();
    RowDistinct1();
    RowDistinct2();
    RowDistinct3();
    RowDistinct4();
    RowDistinct5();
    RowDistinct6();
    RowDistinct7();
    RowsApart01();
    RowsApart02();
    RowsApart03();
    RowsApart04();
    RowsApart05();
    RowsApart06();
    RowsApart07();
    RowsApart12();
    RowsApart13();
    RowsApart14();
    RowsApart15();
    RowsApart16();
    RowsApart17();
    RowsApart23();
    RowsApart24();
    RowsApart25();
    RowsApart26();
    RowsApart27();
    RowsApart34();
    RowsApart35();
    RowsApart36();
    RowsApart37();
    RowsApart45();
    RowsApart46();
    RowsApart47();
    RowsApart56();
    RowsApart57();
    RowsApart67();
    ApartConcat(NamesRow0, NamesRow1, NamesRow2);
    ApartConcat(NamesRow0, NamesRow1, NamesRow3);
    ApartConcat(NamesRow0 + NamesRow1, NamesRow2, NamesRow3);
    ApartConcat(NamesRow0, NamesRow1, NamesRow4);
    ApartConcat(NamesRow0 + NamesRow1, NamesRow2, NamesRow4);
    ApartConcat(NamesRow0 + NamesRow1 + NamesRow2, NamesRow3, NamesRow4);
    ApartConcat(NamesRow0, NamesRow1, NamesRow5);
    ApartConcat(NamesRow0 + NamesRow1, NamesRow2, NamesRow5);
    ApartConcat(NamesRow0 + NamesRow1 + NamesRow2, NamesRow3, NamesRow5);
    ApartConcat(NamesRow0 + NamesRow1 + NamesRow2 + NamesRow3, NamesRow4, NamesRow5);
    ApartConcat(NamesRow0, NamesRow1, NamesRow6);
    ApartConcat(NamesRow0 + NamesRow1, NamesRow2, NamesRow6);
    ApartConcat(NamesRow0 + NamesRow1 + NamesRow2, NamesRow3, NamesRow6);
    ApartConcat(NamesRow0 + NamesRow1 + NamesRow2 + NamesRow3, NamesRow4, NamesRow6);
    ApartConcat(NamesRow0 + NamesRow1 + NamesRow2 + NamesRow3 + NamesRow4, NamesRow5, NamesRow6);
    ApartConcat(NamesRow0, NamesRow1, NamesRow7);
    ApartConcat(NamesRow0 + NamesRow1, NamesRow2, NamesRow7);
    ApartConcat(NamesRow0 + NamesRow1 + NamesRow2, NamesRow3, NamesRow7);
    ApartConcat(NamesRow0 + NamesRow1 + NamesRow2 + NamesRow3, NamesRow4, NamesRow7);
    ApartConcat(NamesRow0 + NamesRow1 + NamesRow2 + NamesRow3 + NamesRow4, NamesRow5, NamesRow7);
    ApartConcat(NamesRow0 + NamesRow1 + NamesRow2 + NamesRow3 + NamesRow4 + NamesRow5, NamesRow6, NamesRow7);
    DistinctConcat(NamesRow0, NamesRow1);
    DistinctConcat(NamesRow0 + NamesRow1, NamesRow2);
    DistinctConcat(NamesRow0 + NamesRow1 + NamesRow2, NamesRow3);
    DistinctConcat(NamesRow0 + NamesRow1 + NamesRow2 + NamesRow3, NamesRow4);
    DistinctConcat(NamesRow0 + NamesRow1 + NamesRow2 + NamesRow3 + NamesRow4, NamesRow5);
    DistinctConcat(NamesRow0 + NamesRow1 + NamesRow2 + NamesRow3 + NamesRow4 + NamesRow5, NamesRow6);
    DistinctConcat(NamesRow0 + NamesRow1 + NamesRow2 + NamesRow3 + NamesRow4 + NamesRow5 + NamesRow6, NamesRow7);
  }

  lemma CodesListed()
    ensures AllListed(Codes, CodesNames)
  {
    RowListed0();
    RowListed1();
    RowListed2();
    RowListed3();
    RowListed4();
    RowListed5();
    RowListed6();
    RowListed7();
    AllListedConcat(CodesRow0, NamesRow0, CodesRow1, NamesRow1);
    AllListedConcat(CodesRow0 + CodesRow1, NamesRow0 + NamesRow1, CodesRow2, NamesRow2);
    AllListedConcat(CodesRow0 + CodesRow1 + CodesRow2, NamesRow0 + NamesRow1 + NamesRow2, CodesRow3, NamesRow3);
    AllListedConcat(CodesRow0 + CodesRow1 + CodesRow2 + CodesRow3, NamesRow0 + NamesRow1 + NamesRow2 + NamesRow3, CodesRow4, NamesRow4);
    AllListedConcat(CodesRow0 + CodesRow1 + CodesRow2 + CodesRow3 + CodesRow4, NamesRow0 + NamesRow1 + NamesRow2 + NamesRow3 + NamesRow4, CodesRow5, NamesRow5);
    AllListedConcat(CodesRow0 + CodesRow1 + CodesRow2 + CodesRow3 + CodesRow4 + CodesRow5, NamesRow0 + NamesRow1 + NamesRow2 + NamesRow3 + NamesRow4 + NamesRow5, CodesRow6, NamesRow6);
    AllListedConcat(CodesRow0 + CodesRow1 + CodesRow2 + CodesRow3 + CodesRow4 + CodesRow5 + CodesRow6, NamesRow0 + NamesRow1 + NamesRow2 + NamesRow3 + NamesRow4 + NamesRow5 + NamesRow6, CodesRow7, NamesRow7);
  }

  lemma RowFreeOfArrows0()
    ensures Apart(CodesRow0, ArrowCodes)
  {
  }

  lemma RowFreeOfArrows1()
    ensures Apart(CodesRow1, ArrowCodes)
  {
  }

  lemma RowFreeOfArrows2()
    ensures Apart(CodesRow2, ArrowCodes)
  {
  }

  lemma RowFreeOfArrows3()
    ensures Apart(CodesRow3, ArrowCodes)
  {
  }

  lemma RowFreeOfArrows4()
    ensures Apart(CodesRow4, ArrowCodes)
  {
  }

  lemma RowFreeOfArrows5()
    ensures Apart(CodesRow5, ArrowCodes)
  {
  }

  lemma RowFreeOfArrows6()
    ensures Apart(CodesRow6, ArrowCodes)
  {
  }

  lemma RowFreeOfArrows7()
    ensures Apart(CodesRow7, ArrowCodes)
  {
  }

  /** The arrow keys, none of which is listed. */
  const ArrowCodes: seq<string> := ["ArrowUp", "ArrowDown", "ArrowLeft", "ArrowRight"]

  lemma CodesFreeOfArrows()
    ensures Apart(Codes, ArrowCodes)
  {
    RowFreeOfArrows0();
    RowFreeOfArrows1();
    RowFreeOfArrows2();
    RowFreeOfArrows3();
    RowFreeOfArrows4();
    RowFreeOfArrows5();
    RowFreeOfArrows6();
    RowFreeOfArrows7();
    ApartConcat(CodesRow0, CodesRow1, ArrowCodes);
    ApartConcat(CodesRow0 + CodesRow1, CodesRow2, ArrowCodes);
    ApartConcat(CodesRow0 + CodesRow1 + CodesRow2, CodesRow3, ArrowCodes);
    ApartConcat(CodesRow0 + CodesRow1 + CodesRow2 + CodesRow3, CodesRow4, ArrowCodes);
    ApartConcat(CodesRow0 + CodesRow1 + CodesRow2 + CodesRow3 + CodesRow4, CodesRow5, ArrowCodes);
    ApartConcat(CodesRow0 + CodesRow1 + CodesRow2 + CodesRow3 + CodesRow4 + CodesRow5, CodesRow6, ArrowCodes);
    ApartConcat(CodesRow0 + CodesRow1 + CodesRow2 + CodesRow3 + CodesRow4 + CodesRow5 + CodesRow6, CodesRow7, ArrowCodes);
  }

  // ---------------------------------------------------------------------
  // What the list guarantees
  // ---------------------------------------------------------------------

  /** Stripping "Key" and then "Digit" from each code gives `codesNames`,
      element by element. */
  lemma NamesFromCodes()
    ensures |Codes| == |CodesNames| == 82
    ensures forall i :: 0 <= i < |Codes| ==> Name(Codes[i]) == CodesNames[i]
  {
    CodesListed();
  }

  /** No listed code has a comma or a dash, so none can blur the id format. */
  lemma CodesAreSafe()
    ensures SafeCodes(Codes)
    ensures forall c :: c in Codes ==> ',' !in c
  {
    CodesListed();
    forall c | c in Codes
      ensures SafeCode(c)
    {
      var i :| 0 <= i < |Codes| && Codes[i] == c;
      DashFreeIsSafe(c);
    }
  }

  /** Over the listed codes the id is injective: two bindings share an id
      exactly when they share code and all four flags. */
  lemma IdInjectiveOverListedCodes(c: string, m: Modifiers, c': string, m': Modifiers)
    requires c in Codes && c' in Codes
    ensures Id(c, m) == Id(c', m') <==> c == c' && m == m'
  {
    CodesAreSafe();
    IdInjectiveOverCodes(Codes, c, m, c', m');
  }

  /** Shift+X is a listed binding with id "KeyX,,,-shiftKey". */
  lemma ShiftXId()
    ensures "KeyX" in Codes
    ensures MakeKeyBinding("KeyX", Some(PartialModifiers(None, None, None, Some(true)))).id == "KeyX,,,-shiftKey"
  {
    XListed();
    var m := MakeModifierBinding(Some(PartialModifiers(None, None, None, Some(true))));
    assert m == Modifiers(false, false, false, true);
    IdShiftOnly("KeyX");
    XShiftText();
  }

  lemma XListed()
    ensures "KeyX" in Codes
  {
    assert Codes[7] == "KeyX";
  }

  lemma XShiftText()
    ensures "KeyX" + ",,,-shiftKey" == "KeyX,,,-shiftKey"
  {
  }

  /** An arrow key gets no binding, whatever its flags. */
  lemma ArrowsUnsupported(e: KeyPress)
    requires e.code in ArrowCodes
    ensures KeyBindingFrom(Codes, e.AsObject()).None?
  {
    CodesFreeOfArrows();
    var j :| 0 <= j < |ArrowCodes| && ArrowCodes[j] == e.code;
    forall i | 0 <= i < |Codes|
      ensures Codes[i] != e.code
    {
      assert Codes[i] != ArrowCodes[j];
    }
  }

  /** A key press, whose four flags are always booleans, gets a binding
      exactly when its code is listed, and then the binding of its own code
      and flags. */
  lemma KeyPressBinding(e: KeyPress)
    ensures KeyBindingFrom(Codes, e.AsObject()).Some? <==> e.code in Codes
    ensures e.code in Codes ==>
      KeyBindingFrom(Codes, e.AsObject()).value.Data() == KeyBindingData(e.code, Modifiers(e.altKey, e.ctrlKey, e.metaKey, e.shiftKey))
  {
    var o := e.AsObject();
    assert IsModifierBinding(o);
  }

  /** The codes are told apart by their names. */
  lemma NamesSeparateCodes(c1: string, c2: string)
    requires c1 in Codes && c2 in Codes && Name(c1) == Name(c2)
    ensures c1 == c2
  {
    NamesFromCodes();
    NamesDistinct();
    DistinctNamesSeparate(Codes, CodesNames, Name, c1, c2);
  }

  /** Codes whose names are listed without repetition are told apart by
      their names. */
  lemma DistinctNamesSeparate(codes: seq<string>, names: seq<string>, name: string -> string, c1: string, c2: string)
    requires |codes| == |names| && forall i :: 0 <= i < |codes| ==> name(codes[i]) == names[i]
    requires Distinct(names) && c1 in codes && c2 in codes && name(c1) == name(c2)
    ensures c1 == c2
  {
    var i :| 0 <= i < |codes| && codes[i] == c1;
    var j :| 0 <= j < |codes| && codes[j] == c2;
    assert names[i] == names[j];
  }

  /** `keys` has exactly the names of `codesNames` as properties. */
  lemma KeysNames()
    ensures Keys(Codes, Name).Keys == set n | n in CodesNames
  {
    NamesFromCodes();
    KeysDomain(Codes, Name, CodesNames);
  }

  /** Under each name, `keys` holds the flag-free binding of the code the
      name was made from. */
  lemma KeysEntry(i: nat)
    requires i < |Codes|
    ensures CodesNames[i] in Keys(Codes, Name)
    ensures Keys(Codes, Name)[CodesNames[i]] == MakeKeyBinding(Codes[i], None)
  {
    NamesFromCodes();
    forall c1, c2 | c1 in Codes && c2 in Codes && Name(c1) == Name(c2)
      ensures c1 == c2
    {
      NamesSeparateCodes(c1, c2);
    }
    KeysOnePerCode(Codes, Name, Codes[i]);
  }

  /** `meta.K` exists and is not a meta binding. */
  lemma MetaK()
    ensures "K" in Meta(Codes) && !Meta(Codes)["K"].mods.metaKey
    ensures Meta(Codes)["K"] == MakeKeyBinding("KeyK", None)
  {
    assert CodesNames[40] == "K" && Codes[40] == "KeyK";
    KeysEntry(40);
  }
}
