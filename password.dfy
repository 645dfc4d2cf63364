/**
 * The password generator: a character set assembled from the enabled
 * classes, optionally without look-alike characters, a password drawn from
 * it, and a strength score with its label.  Math.random() is replaced by a
 * sequence of draws in [0, 1).
 */
module PasswordGenerator {
  import opened Common

  const Uppercase := "ABCDEFGHIJKLMNOPQRSTUVWXYZ"
  const Lowercase := "abcdefghijklmnopqrstuvwxyz"
  const Digits := "0123456789"
  const Symbols := "!@#$%^&*()_+-=[]{}|;:,.<>?"
  /** The characters the "exclude similar" option removes. */
  const Similar := "il1Lo0O"

  /** The enabled classes concatenated in the fixed order upper, lower, digits, symbols. */
  function Classes(upper: bool, lower: bool, numbers: bool, symbols: bool): string
  {
    (if upper then Uppercase else "") + (if lower then Lowercase else "")
      + (if numbers then Digits else "") + (if symbols then Symbols else "")
  }

  /** The text with every character of Similar removed. */
  function RemoveSimilar(s: string): (r: string)
    ensures |r| <= |s|
  {
    if s == [] then []
    else if s[0] in Similar then RemoveSimilar(s[1..])
    else [s[0]] + RemoveSimilar(s[1..])
  }

  /** A character survives exactly when it was there and is not a look-alike. */
  lemma {:induction false} RemoveSimilarMembers(s: string, c: char)
    ensures c in RemoveSimilar(s) <==> c in s && c !in Similar
  {
    if s != [] {
      RemoveSimilarMembers(s[1..], c);
      assert c in s <==> c == s[0] || c in s[1..];
    }
  }

  /** Removal works piece by piece, so the kept characters stay in their order. */
  lemma {:induction false} RemoveSimilarAppend(a: string, b: string)
    ensures RemoveSimilar(a + b) == RemoveSimilar(a) + RemoveSimilar(b)
  {
    if a == [] {
      assert a + b == b;
    } else {
      assert (a + b)[0] == a[0];
      assert (a + b)[1..] == a[1..] + b;
      RemoveSimilarAppend(a[1..], b);
    }
  }

  /** Text without look-alikes is left as it is. */
  lemma {:induction false} RemoveSimilarKeeps(s: string)
    requires forall i :: 0 <= i < |s| ==> s[i] !in Similar
    ensures RemoveSimilar(s) == s
  {
    if s != [] {
      RemoveSimilarKeeps(s[1..]);
    }
  }

  /** The steps of the handler that assemble the character set. */
  method BuildCharset(upper: bool, lower: bool, numbers: bool, symbols: bool, excludeSimilar: bool)
    returns (charset: string)
    ensures charset == if excludeSimilar then RemoveSimilar(Classes(upper, lower, numbers, symbols))
                       else Classes(upper, lower, numbers, symbols)
  {
    charset := "";
    if upper { charset := charset + Uppercase; }
    assert charset == (if upper then Uppercase else "");
    if lower { charset := charset + Lowercase; }
    assert charset == (if upper then Uppercase else "") + (if lower then Lowercase else "");
    if numbers { charset := charset + Digits; }
    assert charset == (if upper then Uppercase else "") + (if lower then Lowercase else "")
      + (if numbers then Digits else "");
    if symbols { charset := charset + Symbols; }
    assert charset == Classes(upper, lower, numbers, symbols);
    if excludeSimilar {
      charset := RemoveSimilar(charset);
    }
  }

  /** A character is in the set exactly when its class is enabled and, if asked, it is not a look-alike. */
  lemma CharsetMembers(upper: bool, lower: bool, numbers: bool, symbols: bool, excludeSimilar: bool, c: char)
    ensures var all := Classes(upper, lower, numbers, symbols);
      var charset := if excludeSimilar then RemoveSimilar(all) else all;
      c in charset <==>
        ((upper && c in Uppercase) || (lower && c in Lowercase)
         || (numbers && c in Digits) || (symbols && c in Symbols))
        && !(excludeSimilar && c in Similar)
  {
    RemoveSimilarMembers(Classes(upper, lower, numbers, symbols), c);
  }

  /** The set is empty, and nothing is generated, exactly when no class is enabled. */
  lemma CharsetEmpty(upper: bool, lower: bool, numbers: bool, symbols: bool, excludeSimilar: bool)
    ensures var all := Classes(upper, lower, numbers, symbols);
      var charset := if excludeSimilar then RemoveSimilar(all) else all;
      charset == "" <==> !upper && !lower && !numbers && !symbols
  {
    if upper || lower || numbers || symbols {
      var sample := if upper then 'A' else if lower then 'a' else if numbers then '2' else '!';
      InClasses();
      NotSimilar();
      CharsetMembers(upper, lower, numbers, symbols, excludeSimilar, sample);
    } else {
      assert Classes(upper, lower, numbers, symbols) == "";
    }
  }

  /** One character of each class ... */
  lemma InClasses()
    ensures 'A' in Uppercase && 'a' in Lowercase && '2' in Digits && '!' in Symbols
  {
    assert Uppercase[0] == 'A' && Lowercase[0] == 'a' && Digits[2] == '2' && Symbols[0] == '!';
  }

  /** ... none of them a look-alike. */
  lemma NotSimilar()
    ensures 'A' !in Similar && 'a' !in Similar && '2' !in Similar && '!' !in Similar
  {
  }

  /** The draw loop: one character of the set per draw, length characters in all. */
  method DrawPassword(charset: string, length: nat, draws: seq<real>) returns (password: string)
    requires |charset| > 0 && |draws| >= length
    requires forall i :: 0 <= i < |draws| ==> 0.0 <= draws[i] < 1.0
    ensures |password| == length
    ensures forall i :: 0 <= i < length ==> password[i] == charset[DrawIndex(draws[i], |charset|)]
  {
    password := "";
    var i := 0;
    while i < length
      invariant 0 <= i <= length && |password| == i
      invariant forall j :: 0 <= j < i ==> password[j] == charset[DrawIndex(draws[j], |charset|)]
    {
      password := password + [charset[DrawIndex(draws[i], |charset|)]];
      i := i + 1;
    }
  }

  predicate HasLower(s: string) { exists i :: 0 <= i < |s| && 'a' <= s[i] <= 'z' }
  predicate HasUpper(s: string) { exists i :: 0 <= i < |s| && 'A' <= s[i] <= 'Z' }
  predicate HasDigit(s: string) { exists i :: 0 <= i < |s| && '0' <= s[i] <= '9' }
  /** Some character that is not an ASCII letter or digit. */
  predicate HasOther(s: string)
  {
    exists i :: 0 <= i < |s| && !('a' <= s[i] <= 'z') && !('A' <= s[i] <= 'Z') && !('0' <= s[i] <= '9')
  }

  function Count(b: bool): nat { if b then 1 else 0 }

  /** One point per length threshold met (8, 12, 16) and one per character class present. */
  function Score(password: string): nat
  {
    Count(|password| >= 8) + Count(|password| >= 12) + Count(|password| >= 16)
      + Count(HasLower(password)) + Count(HasUpper(password))
      + Count(HasDigit(password)) + Count(HasOther(password))
  }

  datatype Strength = Strength(score: nat, labelText: string, color: string)

  /** The label bands of the score. */
  function Label(score: nat): (r: (string, string))
  {
    if score >= 6 then ("Very Strong", "text-green-600")
    else if score >= 5 then ("Strong", "text-green-500")
    else if score >= 4 then ("Good", "text-yellow-600")
    else if score >= 3 then ("Fair", "text-orange-600")
    else if score >= 2 then ("Weak", "text-red-500")
    else ("Very Weak", "text-red-600")
  }

  function StrengthOf(password: string): Strength
  {
    var score := Score(password);
    Strength(score, Label(score).0, Label(score).1)
  }

  /** The step-by-step scoring of the strength check. */
  method CalculateStrength(password: string) returns (s: Strength)
    ensures s == StrengthOf(password)
  {
    var score := ScorePoints(password);
    var labelText, color := LabelFor(score);
    s := Strength(score, labelText, color);
  }

  /** The points of the strength check, added one test at a time. */
  method ScorePoints(password: string) returns (score: nat)
    ensures score == Score(password)
  {
    score := 0;
    if |password| >= 8 { score := score + 1; }
    if |password| >= 12 { score := score + 1; }
    if |password| >= 16 { score := score + 1; }
    if HasLower(password) { score := score + 1; }
    if HasUpper(password) { score := score + 1; }
    if HasDigit(password) { score := score + 1; }
    if HasOther(password) { score := score + 1; }
  }

  /** The label cascade: "Very Weak" unless a higher band is reached. */
  method LabelFor(score: nat) returns (labelText: string, color: string)
    ensures (labelText, color) == Label(score)
  {
    labelText := "Very Weak";
    color := "text-red-600";
    if score >= 6 {
      labelText, color := "Very Strong", "text-green-600";
    } else if score >= 5 {
      labelText, color := "Strong", "text-green-500";
    } else if score >= 4 {
      labelText, color := "Good", "text-yellow-600";
    } else if score >= 3 {
      labelText, color := "Fair", "text-orange-600";
    } else if score >= 2 {
      labelText, color := "Weak", "text-red-500";
    }
  }

  /** The score is at most 7, and 7 exactly for 16 or more characters with all four classes. */
  lemma ScoreBounds(password: string)
    ensures Score(password) <= 7
    ensures Score(password) == 7 <==>
      |password| >= 16 && HasLower(password) && HasUpper(password)
      && HasDigit(password) && HasOther(password)
    ensures (|password| < 8 && !HasLower(password) && !HasUpper(password)
             && !HasDigit(password) && !HasOther(password)) ==> Score(password) == 0
  {
  }

  /** Each label belongs to exactly one band of scores. */
  lemma LabelBands(score: nat)
    ensures Label(score).0 == "Very Strong" <==> score >= 6
    ensures Label(score).0 == "Strong" <==> score == 5
    ensures Label(score).0 == "Good" <==> score == 4
    ensures Label(score).0 == "Fair" <==> score == 3
    ensures Label(score).0 == "Weak" <==> score == 2
    ensures Label(score).0 == "Very Weak" <==> score <= 1
  {
  }

  /** The page: the last password and its strength. */
  class PasswordPage {
    var password: string
    var strength: Option<Strength>

    constructor ()
      ensures password == "" && strength == None
    {
      password := "";
      strength := None;
    }

    /**
     * The Generate button.  With no class enabled nothing changes; otherwise
     * the password takes one character of the set per draw and the strength
     * is that of the new password.
     */
    method GeneratePassword(length: nat, upper: bool, lower: bool, numbers: bool, symbols: bool,
                            excludeSimilar: bool, draws: seq<real>)
      requires |draws| >= length
      requires forall i :: 0 <= i < |draws| ==> 0.0 <= draws[i] < 1.0
      modifies this
      ensures var all := Classes(upper, lower, numbers, symbols);
        var charset := if excludeSimilar then RemoveSimilar(all) else all;
        if charset == "" then password == old(password) && strength == old(strength)
        else && |password| == length
             && (forall i :: 0 <= i < length ==> password[i] == charset[DrawIndex(draws[i], |charset|)])
             && strength == Some(StrengthOf(password))
    {
      var charset := BuildCharset(upper, lower, numbers, symbols, excludeSimilar);
      if charset == "" {
        return;
      }
      var newPassword := DrawPassword(charset, length, draws);
      password := newPassword;
      var s := CalculateStrength(newPassword);
      strength := Some(s);
    }
  }

  /** With look-alikes excluded, no character of a generated password is one. */
  lemma NoSimilarDrawn(upper: bool, lower: bool, numbers: bool, symbols: bool, password: string, draws: seq<real>)
    requires var charset := RemoveSimilar(Classes(upper, lower, numbers, symbols));
      |charset| > 0 && |draws| >= |password|
      && (forall i :: 0 <= i < |draws| ==> 0.0 <= draws[i] < 1.0)
      && (forall i :: 0 <= i < |password| ==> password[i] == charset[DrawIndex(draws[i], |charset|)])
    ensures forall i :: 0 <= i < |password| ==> password[i] !in Similar
  {
    var charset := RemoveSimilar(Classes(upper, lower, numbers, symbols));
    forall i | 0 <= i < |password|
      ensures password[i] !in Similar
    {
      RemoveSimilarMembers(Classes(upper, lower, numbers, symbols), password[i]);
    }
  }
}
