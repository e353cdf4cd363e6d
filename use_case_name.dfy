/** The use-case conversion both Java `GlideService` variants apply before
    `UseCase.valueOf`: `replaceAll("([a-z])([A-Z])", "$1_$2").toUpperCase()`,
    so "GetPhoneNumber" becomes "GET_PHONE_NUMBER". */
module UseCaseName {
  import opened Common

  predicate IsLower(c: char) { 'a' <= c <= 'z' }
  predicate IsUpper(c: char) { 'A' <= c <= 'Z' }

  /** Upper-cases an ASCII letter and keeps every other character. */
  function UpperChar(c: char): (u: char)
    ensures !IsLower(u)
    ensures IsLower(c) ==> IsUpper(u) && u as int == c as int - 32
    ensures !IsLower(c) ==> u == c
  {
    if IsLower(c) then (c as int - 32) as char else c
  }

  /** `toUpperCase`, on ASCII letters. */
  function Upper(s: string): (r: string)
    ensures |r| == |s|
    ensures forall i :: 0 <= i < |s| ==> r[i] == UpperChar(s[i])
  {
    seq(|s|, i requires 0 <= i < |s| => UpperChar(s[i]))
  }

  /** The regular-expression replacement: an underscore goes between every
      lower-case letter and the upper-case letter right after it. Two matches
      never overlap, because the upper-case letter that ends one match cannot
      start another, so scanning one position at a time is exact. */
  function Underscored(s: string): (r: string)
    ensures |s| <= |r| <= 2 * |s|
    ensures |s| > 0 ==> r[0] == s[0] && r[|r| - 1] == s[|s| - 1]
  {
    if |s| < 2 then s
    else [s[0]] + Separator(s[0], s[1]) + Underscored(s[1..])
  }

  /** What goes between two neighbouring characters: "_" when they form a
      match of `([a-z])([A-Z])`, else nothing. */
  function Separator(c: char, d: char): string
  {
    if IsLower(c) && IsUpper(d) then "_" else ""
  }

  /** The enum constant name computed from a request's use case: no
      lower-case letter is left, and it starts with the upper-cased first
      character of the use case. */
  function EnumName(useCase: string): (r: string)
    ensures |useCase| <= |r| <= 2 * |useCase|
    ensures forall k :: 0 <= k < |r| ==> !IsLower(r[k])
    ensures |useCase| > 0 ==> r[0] == UpperChar(useCase[0])
  {
    Upper(Underscored(useCase))
  }

  /** Position `j` is a boundary: a lower-case letter followed by an upper-case one. */
  predicate IsBoundary(s: string, j: int)
  {
    0 <= j && j + 1 < |s| && IsLower(s[j]) && IsUpper(s[j + 1])
  }

  /** The number of boundaries at positions before `i`, counted from the left. */
  function BoundariesBefore(s: string, i: nat): nat
    requires i <= |s|
  {
    if i == 0 then 0 else BoundariesBefore(s, i - 1) + (if IsBoundary(s, i - 1) then 1 else 0)
  }

  /** Counting the boundaries of `s` is counting the first one and those of `s[1..]`. */
  lemma {:induction false} BoundariesBeforeTail(s: string, i: nat)
    requires 1 <= i <= |s|
    ensures BoundariesBefore(s, i)
            == (if IsBoundary(s, 0) then 1 else 0) + BoundariesBefore(s[1..], i - 1)
  {
    if i > 1 {
      BoundariesBeforeTail(s, i - 1);
      assert IsBoundary(s, i - 1) == IsBoundary(s[1..], i - 2);
    }
  }

  /** A string shorter than two characters has no boundary. */
  lemma {:induction false} NoBoundariesInShort(s: string, i: nat)
    requires |s| < 2 && i <= |s|
    ensures BoundariesBefore(s, i) == 0
  {
    if i > 0 {
      NoBoundariesInShort(s, i - 1);
    }
  }

  /** One step of the scan: the first character, an underscore when the
      first position is a boundary, then the scan of the rest. */
  lemma {:induction false} UnderscoredStep(s: string)
    requires |s| >= 2
    ensures Underscored(s) == [s[0]] + (if IsBoundary(s, 0) then "_" else "") + Underscored(s[1..])
  {
  }

  /** The result is longer than the input by exactly the number of boundaries. */
  lemma {:induction false} UnderscoredLength(s: string)
    ensures |Underscored(s)| == |s| + BoundariesBefore(s, |s|)
  {
    if |s| < 2 {
      NoBoundariesInShort(s, |s|);
    } else {
      UnderscoredStep(s);
      UnderscoredLength(s[1..]);
      BoundariesBeforeTail(s, |s|);
    }
  }

  /** Character `i` of the input lands at `i` plus the number of boundaries before it. */
  lemma {:induction false} UnderscoredKeeps(s: string, i: nat)
    requires i < |s|
    ensures i + BoundariesBefore(s, i) < |Underscored(s)|
    ensures Underscored(s)[i + BoundariesBefore(s, i)] == s[i]
  {
    UnderscoredLength(s);
    if |s| < 2 {
      NoBoundariesInShort(s, i);
    } else if i > 0 {
      var t := s[1..];
      var p := [s[0]] + (if IsBoundary(s, 0) then "_" else "");
      UnderscoredStep(s);
      BoundariesBeforeTail(s, i);
      UnderscoredKeeps(t, i - 1);
      assert i + BoundariesBefore(s, i) == |p| + (i - 1) + BoundariesBefore(t, i - 1);
    }
  }

  /** Every boundary `j` is followed, in the result, by an underscore. */
  lemma {:induction false} UnderscoredInserts(s: string, j: nat)
    requires IsBoundary(s, j)
    ensures j + BoundariesBefore(s, j) + 1 < |Underscored(s)|
    ensures Underscored(s)[j + BoundariesBefore(s, j) + 1] == '_'
  {
    UnderscoredLength(s);
    UnderscoredStep(s);
    if j > 0 {
      var t := s[1..];
      var p := [s[0]] + (if IsBoundary(s, 0) then "_" else "");
      BoundariesBeforeTail(s, j);
      assert IsBoundary(t, j - 1);
      UnderscoredInserts(t, j - 1);
      assert j + BoundariesBefore(s, j) + 1 == |p| + (j - 1) + BoundariesBefore(t, j - 1) + 1;
    }
  }

  /** The converted name is longer than the use case by exactly the number
      of boundaries; together with `EnumNameKeepsAll` and `EnumNameInsertsAll`
      this says it holds every original character, upper-cased, in order, an
      underscore after every boundary, and nothing else. */
  lemma {:induction false} EnumNameLength(s: string)
    ensures |EnumName(s)| == |s| + BoundariesBefore(s, |s|)
  {
    UnderscoredLength(s);
  }

  /** Every input character, upper-cased, in the converted name. */
  lemma {:induction false} EnumNameKeepsAll(s: string)
    ensures forall i :: 0 <= i < |s| ==>
              i + BoundariesBefore(s, i) < |EnumName(s)| && EnumName(s)[i + BoundariesBefore(s, i)] == UpperChar(s[i])
  {
    forall i | 0 <= i < |s|
      ensures i + BoundariesBefore(s, i) < |EnumName(s)| && EnumName(s)[i + BoundariesBefore(s, i)] == UpperChar(s[i])
    {
      EnumNameKeeps(s, i);
    }
  }

  /** An underscore after every boundary, in the converted name. */
  lemma {:induction false} EnumNameInsertsAll(s: string)
    ensures forall j :: IsBoundary(s, j) ==>
              j + BoundariesBefore(s, j) + 1 < |EnumName(s)| && EnumName(s)[j + BoundariesBefore(s, j) + 1] == '_'
  {
    forall j | IsBoundary(s, j)
      ensures j + BoundariesBefore(s, j) + 1 < |EnumName(s)| && EnumName(s)[j + BoundariesBefore(s, j) + 1] == '_'
    {
      EnumNameInserts(s, j);
    }
  }

  /** Character `i` of the input, upper-cased, in the converted name. */
  lemma {:induction false} EnumNameKeeps(s: string, i: nat)
    requires i < |s|
    ensures i + BoundariesBefore(s, i) < |EnumName(s)|
    ensures EnumName(s)[i + BoundariesBefore(s, i)] == UpperChar(s[i])
  {
    UnderscoredKeeps(s, i);
    EnumNameAt(s, i + BoundariesBefore(s, i));
  }

  /** The underscore after boundary `j`, in the converted name. */
  lemma {:induction false} EnumNameInserts(s: string, j: nat)
    requires IsBoundary(s, j)
    ensures j + BoundariesBefore(s, j) + 1 < |EnumName(s)|
    ensures EnumName(s)[j + BoundariesBefore(s, j) + 1] == '_'
  {
    UnderscoredInserts(s, j);
    EnumNameAt(s, j + BoundariesBefore(s, j) + 1);
  }

  /** Position `p` of the converted name is position `p` of the scan, upper-cased. */
  lemma {:induction false} EnumNameAt(s: string, p: nat)
    requires p < |Underscored(s)|
    ensures |EnumName(s)| == |Underscored(s)|
    ensures EnumName(s)[p] == UpperChar(Underscored(s)[p])
  {
  }

  /** A converted name holds no lower-case letter. */
  lemma {:induction false} EnumNameHasNoLowerCase(s: string)
    ensures forall k :: 0 <= k < |EnumName(s)| ==> !IsLower(EnumName(s)[k])
  {
  }

  /** Without lower-case letters there is no boundary, so nothing is inserted. */
  lemma {:induction false} UnderscoredWithoutLowerCase(s: string)
    requires forall k :: 0 <= k < |s| ==> !IsLower(s[k])
    ensures Underscored(s) == s
  {
    if |s| >= 2 {
      UnderscoredWithoutLowerCase(s[1..]);
    }
  }

  /** Upper-casing twice is upper-casing once. */
  lemma {:induction false} UpperIdempotent(s: string)
    ensures Upper(Upper(s)) == Upper(s)
  {
    assert forall i :: 0 <= i < |s| ==> UpperChar(UpperChar(s[i])) == UpperChar(s[i]);
  }

  /** Converting an already converted name changes nothing, so a request
      that sends "GET_PHONE_NUMBER" reaches the same constant. */
  lemma {:induction false} EnumNameIdempotent(s: string)
    ensures EnumName(EnumName(s)) == EnumName(s)
  {
    EnumNameHasNoLowerCase(s);
    UnderscoredWithoutLowerCase(EnumName(s));
    UpperIdempotent(Underscored(s));
  }

  /** Scanning a concatenation: the scans of both parts, joined by the
      separator their meeting characters call for. */
  lemma {:induction false} UnderscoredJoin(a: string, b: string)
    requires |a| >= 1 && |b| >= 1
    ensures Underscored(a + b) == Underscored(a) + Separator(a[|a| - 1], b[0]) + Underscored(b)
    decreases |a|
  {
    var ab := a + b;
    var mid := Separator(a[|a| - 1], b[0]);
    if |a| == 1 {
      assert ab[1..] == b && ab[0] == a[0] && ab[1] == b[0];
    } else {
      var t := a[1..];
      assert ab[1..] == t + b && ab[0] == a[0] && ab[1] == a[1];
      assert t[|t| - 1] == a[|a| - 1];
      UnderscoredJoin(t, b);
      JoinStep(a[0], Separator(a[0], a[1]), Underscored(t), mid, Underscored(b));
    }
  }

  /** Regrouping the pieces of one scan step. */
  lemma {:induction false} JoinStep(c: char, sep: string, x: string, mid: string, y: string)
    ensures [c] + sep + (x + mid + y) == ([c] + sep + x) + mid + y
  {
  }

  /** Three words where each of the first two ends in a lower-case letter and
      each of the last two starts with an upper-case one: an underscore
      between each pair. */
  lemma {:induction false} UnderscoredThreeWords(w1: string, w2: string, w3: string)
    requires |w1| >= 1 && |w2| >= 1 && |w3| >= 1
    requires IsLower(w1[|w1| - 1]) && IsUpper(w2[0]) && IsLower(w2[|w2| - 1]) && IsUpper(w3[0])
    ensures Underscored(w1 + w2 + w3) == Underscored(w1) + "_" + Underscored(w2) + "_" + Underscored(w3)
  {
    var rest := w2 + w3;
    UnderscoredJoin(w2, w3);
    assert rest[0] == w2[0];
    UnderscoredJoin(w1, rest);
    assert w1 + w2 + w3 == w1 + rest;
    JoinStep5(Underscored(w1), Underscored(w2), Underscored(w3), "_");
  }

  /** Regrouping two joins. */
  lemma {:induction false} JoinStep5(x1: string, x2: string, x3: string, us: string)
    ensures x1 + us + (x2 + us + x3) == x1 + us + x2 + us + x3
  {
  }

  /** A capitalised word: an upper-case letter, then at least one lower-case one. */
  predicate IsWord(w: string)
  {
    |w| >= 2 && IsUpper(w[0]) && forall k :: 1 <= k < |w| ==> IsLower(w[k])
  }

  /** With no upper-case letter after the first position nothing is inserted. */
  lemma {:induction false} UnderscoredWithoutUpperCase(s: string)
    requires forall k :: 1 <= k < |s| ==> !IsUpper(s[k])
    ensures Underscored(s) == s
  {
    if |s| >= 2 {
      var t := s[1..];
      assert forall k :: 1 <= k < |t| ==> t[k] == s[k + 1];
      UnderscoredWithoutUpperCase(t);
      assert Separator(s[0], s[1]) == "";
      assert [s[0]] + t == s;
    }
  }

  /** Upper-casing distributes over concatenation. */
  lemma {:induction false} UpperAppend(a: string, b: string)
    ensures Upper(a + b) == Upper(a) + Upper(b)
  {
    assert forall i :: 0 <= i < |a + b| ==> (a + b)[i] == if i < |a| then a[i] else b[i - |a|];
  }

  /** A use case made of three capitalised words ("GetPhoneNumber") converts
      to those words upper-cased and joined by underscores. */
  lemma {:induction false} EnumNameOfThreeWords(w1: string, w2: string, w3: string)
    requires IsWord(w1) && IsWord(w2) && IsWord(w3)
    ensures EnumName(w1 + w2 + w3) == Upper(w1) + "_" + Upper(w2) + "_" + Upper(w3)
  {
    UnderscoredThreeWords(w1, w2, w3);
    UnderscoredWithoutUpperCase(w1);
    UnderscoredWithoutUpperCase(w2);
    UnderscoredWithoutUpperCase(w3);
    var us := "_";
    UpperAppend(w1 + us + w2 + us, w3);
    UpperAppend(w1 + us + w2, us);
    UpperAppend(w1 + us, w2);
    UpperAppend(w1, us);
    assert Upper(us) == us;
  }

  /** The words of both use cases, upper-cased. */
  lemma {:induction false} UpperOfWords()
    ensures Upper("Get") == "GET" && Upper("Verify") == "VERIFY"
    ensures Upper("Phone") == "PHONE" && Upper("Number") == "NUMBER"
  {
  }

  /** The use case "GetPhoneNumber", written as its three words, names the
      constant GET_PHONE_NUMBER. */
  lemma {:induction false} GetPhoneNumberName(get: string, phone: string, number: string, enumClass: string)
    requires get == "Get" && phone == "Phone" && number == "Number"
    ensures get + phone + number == "GetPhoneNumber"
    ensures EnumName(get + phone + number) == "GET_PHONE_NUMBER"
    ensures ValueOf(EnumName(get + phone + number), enumClass) == Returned(GET_PHONE_NUMBER)
  {
    EnumNameOfThreeWords(get, phone, number);
    UpperOfWords();
  }

  /** The use case "VerifyPhoneNumber", written as its three words, names the
      constant VERIFY_PHONE_NUMBER. */
  lemma {:induction false} VerifyPhoneNumberName(verify: string, phone: string, number: string, enumClass: string)
    requires verify == "Verify" && phone == "Phone" && number == "Number"
    ensures verify + phone + number == "VerifyPhoneNumber"
    ensures EnumName(verify + phone + number) == "VERIFY_PHONE_NUMBER"
    ensures ValueOf(EnumName(verify + phone + number), enumClass) == Returned(VERIFY_PHONE_NUMBER)
  {
    EnumNameOfThreeWords(verify, phone, number);
    UpperOfWords();
  }

  /** The SDK enum both services convert into. */
  datatype UseCase = GET_PHONE_NUMBER | VERIFY_PHONE_NUMBER

  /** `UseCase.valueOf(name)`: the constant of that exact name, else the
      IllegalArgumentException that `Enum.valueOf` throws, whose message names
      the enum class. */
  function ValueOf(name: string, enumClass: string): (r: Outcome<UseCase>)
    ensures r.Returned? <==> name == "GET_PHONE_NUMBER" || name == "VERIFY_PHONE_NUMBER"
    ensures r.Threw? ==> r.thrown.IllegalArgument?
  {
    if name == "GET_PHONE_NUMBER" then Returned(GET_PHONE_NUMBER)
    else if name == "VERIFY_PHONE_NUMBER" then Returned(VERIFY_PHONE_NUMBER)
    else Threw(IllegalArgument(Some("No enum constant " + enumClass + "." + name)))
  }
}
