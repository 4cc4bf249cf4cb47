/**
  The three field validators of the catalogue (netflix/validators.py).

  Each validator either accepts its argument or raises a validation error with a
  fixed message; the uppercase check, which indexes the first character, crashes
  on an empty string instead. None of them changes its argument: they are pure
  functions here. The clock that the age validator reads is the parameter
  `currentYear`.

  Character classes (Python's str.isupper / str.isalpha) are modelled over ASCII,
  the basic Cyrillic block (U+0400 to U+045F), and two blocks of upper-case
  characters that are not letters: the capital Roman numerals (U+2160 to U+216F)
  and the circled capitals (U+24B6 to U+24CF). Every other character counts as
  neither a letter nor upper case.
 */
module Validators {

  /** What a validator does with its argument. */
  datatype Outcome =
    | Pass                      // returns None
    | Invalid(message: string)  // raises ValidationError
    | IndexError                // `value[0]` on an empty string

  const UppercaseMessage: string := "The name should start with an uppercase letter."
  const LettersMessage: string := "The name should contain only letters."
  const AgeMessage: string := "Invalid age."

  /** A calendar date; only its year is examined by the validators. */
  datatype Date = Date(year: int, month: int, day: int)

  // ---------------------------------------------------------------- characters

  predicate IsUpperLetter(c: char) {
    ('A' <= c <= 'Z') || ('\U{0400}' <= c <= '\U{042F}')
  }

  predicate IsLowerLetter(c: char) {
    ('a' <= c <= 'z') || ('\U{0430}' <= c <= '\U{045F}')
  }

  /** Python's `c.isalpha()` on one character. */
  predicate IsAlpha(c: char) {
    IsUpperLetter(c) || IsLowerLetter(c)
  }

  /**
    Python's `c.isupper()` on one character: the upper-case letters, and also the
    capital Roman numerals and circled capitals, which are upper case without
    being letters.
   */
  predicate IsUpper(c: char) {
    IsUpperLetter(c) || ('\U{2160}' <= c <= '\U{216F}') || ('\U{24B6}' <= c <= '\U{24CF}')
  }

  /** Python's `s.isalpha()`: at least one character, and all of them letters. */
  predicate IsAlphaString(s: string) {
    |s| > 0 && forall i :: 0 <= i < |s| ==> IsAlpha(s[i])
  }

  /** Python's `s.replace(" ", "")`: every space character removed, order kept. */
  function RemoveSpaces(s: string): (r: string)
    ensures |r| <= |s|
    ensures forall c :: c in r <==> c in s && c != ' '
    ensures r == [] <==> forall i :: 0 <= i < |s| ==> s[i] == ' '
  {
    if s == [] then []
    else if s[0] == ' ' then RemoveSpaces(s[1..])
    else [s[0]] + RemoveSpaces(s[1..])
  }

  // ---------------------------------------------------------------- validators

  /** `starts_with_uppercase_validator`: only the first character is examined. */
  function StartsWithUppercase(value: string): (r: Outcome)
    ensures value == [] <==> r == IndexError
    ensures value != [] ==> (r == Pass <==> IsUpper(value[0]))
    ensures r.Invalid? ==> r.message == UppercaseMessage
  {
    if value == [] then IndexError
    else if !IsUpper(value[0]) then Invalid(UppercaseMessage)
    else Pass
  }

  /** `contains_only_letters_validator`: the name without its spaces must pass `isalpha`. */
  function ContainsOnlyLetters(value: string): (r: Outcome)
    ensures r != Pass ==> r == Invalid(LettersMessage)
  {
    if !IsAlphaString(RemoveSpaces(value)) then Invalid(LettersMessage) else Pass
  }

  /**
    What the letters check accepts, without reference to space removal: some
    character is not a space, and every character is a letter or a space.
   */
  lemma LettersRule(value: string)
    ensures ContainsOnlyLetters(value) == Pass <==>
      (exists i :: 0 <= i < |value| && value[i] != ' ') &&
      (forall i :: 0 <= i < |value| ==> value[i] == ' ' || IsAlpha(value[i]))
  {
    var stripped := RemoveSpaces(value);
    if !IsAlphaString(stripped) {
      assert stripped != [] ==> exists i :: 0 <= i < |value| && value[i] != ' ' && !IsAlpha(value[i]) by {
        if stripped != [] {
          var j :| 0 <= j < |stripped| && !IsAlpha(stripped[j]);
          assert stripped[j] in value;
        }
      }
    } else {
      assert forall i :: 0 <= i < |value| && value[i] != ' ' ==> value[i] in stripped;
    }
  }

  /** `age_validator`: rejects a year after the current one; no lower bound. */
  function AgeValidator(value: Date, currentYear: int): (r: Outcome)
    ensures r == Pass <==> value.year <= currentYear
    ensures r != Pass ==> r == Invalid(AgeMessage)
  {
    if value.year > currentYear then Invalid(AgeMessage) else Pass
  }

  // ---------------------------------------------------------------- properties

  /**
    Upper case does not imply a letter: a name made of the Roman numeral one
    passes the uppercase check and fails the letters check. A letter that is
    upper case is always accepted by the uppercase check.
   */
  lemma UpperNeedNotBeLetter()
    ensures StartsWithUppercase("\U{2160}") == Pass
    ensures ContainsOnlyLetters("\U{2160}") == Invalid(LettersMessage)
    ensures forall c :: IsUpperLetter(c) ==> IsUpper(c) && IsAlpha(c)
  {
    NonLetterRejected("\U{2160}", 0);
  }

  /** Characters after the first do not affect the uppercase check. */
  lemma UppercaseReadsOnlyFirst(a: string, b: string)
    requires a != [] && b != [] && a[0] == b[0]
    ensures StartsWithUppercase(a) == StartsWithUppercase(b)
  {
  }

  /** The strings with no letter left after removing spaces: empty and all-space names. */
  lemma {:induction false} AllSpacesRejected(value: string)
    requires forall i :: 0 <= i < |value| ==> value[i] == ' '
    ensures RemoveSpaces(value) == []
    ensures ContainsOnlyLetters(value) == Invalid(LettersMessage)
  {
    if value != [] {
      AllSpacesRejected(value[1..]);
    }
  }

  /** Space removal works piece by piece: the kept characters stay in their order. */
  lemma {:induction false} RemoveSpacesAppend(a: string, b: string)
    ensures RemoveSpaces(a + b) == RemoveSpaces(a) + RemoveSpaces(b)
  {
    if a == [] {
      assert a + b == b;
    } else {
      assert (a + b)[0] == a[0] && (a + b)[1..] == a[1..] + b;
      RemoveSpacesAppend(a[1..], b);
    }
  }

  /** Space removal keeps every other character as often as it occurs, and no space. */
  lemma {:induction false} RemoveSpacesCounts(s: string)
    ensures multiset(RemoveSpaces(s)) == multiset(s)[' ' := 0]
  {
    if s != [] {
      assert s == [s[0]] + s[1..];
      RemoveSpacesCounts(s[1..]);
    }
  }

  /** A string without a space is returned as it is. */
  lemma {:induction false} RemoveSpacesKeepsSpaceless(s: string)
    requires forall i :: 0 <= i < |s| ==> s[i] != ' '
    ensures RemoveSpaces(s) == s
  {
    if s != [] {
      RemoveSpacesKeepsSpaceless(s[1..]);
    }
  }

  /** Only ' ' is stripped: one tab, digit or punctuation mark anywhere rejects the name. */
  lemma NonLetterRejected(value: string, i: int)
    requires 0 <= i < |value| && value[i] != ' ' && !IsAlpha(value[i])
    ensures ContainsOnlyLetters(value) == Invalid(LettersMessage)
  {
    LettersRule(value);
  }

  /** Inserting spaces between the letters of an accepted name keeps it accepted. */
  lemma SpacesDoNotMatter(a: string, b: string)
    requires ContainsOnlyLetters(a + b) == Pass
    ensures ContainsOnlyLetters(a + " " + b) == Pass
  {
    LettersRule(a + b);
    LettersRule(a + " " + b);
    var s := a + " " + b;
    var ab := a + b;
    var k :| 0 <= k < |ab| && ab[k] != ' ';
    var w := if k < |a| then k else k + 1;
    assert s[w] == ab[k];
    forall i | 0 <= i < |s|
      ensures s[i] == ' ' || IsAlpha(s[i])
    {
      if i < |a| {
        assert s[i] == ab[i];
      } else if i > |a| {
        assert s[i] == ab[i - 1];
      }
    }
  }

  /** The age check accepts the current year and every earlier one. */
  lemma AgeAcceptsUpToCurrentYear(value: Date, currentYear: int)
    requires value.year <= currentYear
    ensures AgeValidator(value, currentYear) == Pass
    ensures forall later :: later >= currentYear ==> AgeValidator(value, later) == Pass
  {
  }
}
