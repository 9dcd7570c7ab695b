/**
 * `processLatvianText` of the basic generator: each of the 22 Latvian letters
 * with a diacritic becomes its ASCII base letter, in the same case; nothing else
 * changes.
 */
module BasicText {
  import opened Basics

  predicate IsLowerLatvian(c: char) {
    c == 'ā' || c == 'č' || c == 'ē' || c == 'ģ' || c == 'ī' || c == 'ķ' ||
    c == 'ļ' || c == 'ņ' || c == 'š' || c == 'ū' || c == 'ž'
  }

  predicate IsUpperLatvian(c: char) {
    c == 'Ā' || c == 'Č' || c == 'Ē' || c == 'Ģ' || c == 'Ī' || c == 'Ķ' ||
    c == 'Ļ' || c == 'Ņ' || c == 'Š' || c == 'Ū' || c == 'Ž'
  }

  /** The letters of the character class the replacement matches. */
  predicate IsLatvianLetter(c: char) {
    IsLowerLatvian(c) || IsUpperLatvian(c)
  }

  /** The replacement table, with every other character mapped to itself. */
  function Fold(c: char): char {
    match c
    case 'ā' => 'a' case 'č' => 'c' case 'ē' => 'e' case 'ģ' => 'g' case 'ī' => 'i' case 'ķ' => 'k'
    case 'ļ' => 'l' case 'ņ' => 'n' case 'š' => 's' case 'ū' => 'u' case 'ž' => 'z'
    case 'Ā' => 'A' case 'Č' => 'C' case 'Ē' => 'E' case 'Ģ' => 'G' case 'Ī' => 'I' case 'Ķ' => 'K'
    case 'Ļ' => 'L' case 'Ņ' => 'N' case 'Š' => 'S' case 'Ū' => 'U' case 'Ž' => 'Z'
    case _ => c
  }

  /** A letter of the class becomes an ASCII letter of the same case; every other
      character is kept; no letter of the class is ever produced. */
  lemma FoldChar(c: char)
    ensures IsLowerLatvian(c) ==> 'a' <= Fold(c) <= 'z'
    ensures IsUpperLatvian(c) ==> 'A' <= Fold(c) <= 'Z'
    ensures !IsLatvianLetter(c) ==> Fold(c) == c
    ensures !IsLatvianLetter(Fold(c))
  {
  }

  /** `text.replace(/[...]/g, ...)`, one character at a time. */
  function ProcessLatvianText(s: string): (r: string)
    ensures |r| == |s|
    ensures forall i :: 0 <= i < |s| ==> r[i] == Fold(s[i])
  {
    seq(|s|, i requires 0 <= i < |s| => Fold(s[i]))
  }

  /** The output contains none of the 22 letters, and characters outside the class
      pass through unchanged. */
  lemma ProcessedHasNoLatvianLetters(s: string)
    ensures forall i :: 0 <= i < |s| ==> !IsLatvianLetter(ProcessLatvianText(s)[i])
    ensures forall i :: 0 <= i < |s| && !IsLatvianLetter(s[i]) ==> ProcessLatvianText(s)[i] == s[i]
  {
    forall i | 0 <= i < |s| ensures !IsLatvianLetter(ProcessLatvianText(s)[i]) {
      FoldChar(s[i]);
    }
  }

  /** Text without any of the letters is left as it is. */
  lemma ProcessPlainText(s: string)
    requires forall i :: 0 <= i < |s| ==> !IsLatvianLetter(s[i])
    ensures ProcessLatvianText(s) == s
  {
    forall i | 0 <= i < |s| ensures ProcessLatvianText(s)[i] == s[i] {
      FoldChar(s[i]);
    }
  }

  /** Processing twice is processing once. */
  lemma ProcessIdempotent(s: string)
    ensures ProcessLatvianText(ProcessLatvianText(s)) == ProcessLatvianText(s)
  {
    ProcessedHasNoLatvianLetters(s);
    ProcessPlainText(ProcessLatvianText(s));
  }

  /** Upper-casing a title and then processing it gives the same text as processing
      first: the table maps each upper-case letter to the upper case of its base. */
  lemma ProcessCommutesWithUpper(s: string)
    ensures ProcessLatvianText(ToUpper(s)) == ToUpper(ProcessLatvianText(s))
  {
    forall i | 0 <= i < |s| ensures Fold(UpperChar(s[i])) == UpperChar(Fold(s[i])) {
      FoldUpper(s[i]);
    }
  }

  lemma FoldUpper(c: char)
    ensures Fold(UpperChar(c)) == UpperChar(Fold(c))
  {
    if 'a' <= c <= 'z' {
      assert !IsLatvianLetter(c) && !IsLatvianLetter(UpperChar(c));
    } else if !IsLatvianLetter(c) {
      assert UpperChar(c) == c;
    }
  }
}
