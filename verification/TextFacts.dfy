/** What the text functions mean, character by character: which words a text has, which letters
    become capitals, and which digits a number is written with. */
module TextFacts {
  import opened Text

  // ------------------------------------------------------------ words

  /** The word stands at this position, with white space or an end on either side. */
  predicate StandsAt(s: string, w: string, k: nat) {
    OccursAt(s, w, k) && (k > 0 ==> IsSpace(s[k - 1])) && (k + |w| < |s| ==> IsSpace(s[k + |w|]))
  }

  lemma {:induction false} WordMaximal(s: string)
    ensures |Word(s)| < |s| ==> IsSpace(s[|Word(s)|])
  {
    if s == "" || IsSpace(s[0]) {
    } else {
      WordMaximal(s[1..]);
    }
  }

  lemma OccursChars(s: string, w: string, k: nat)
    requires OccursAt(s, w, k)
    ensures forall j :: 0 <= j < |w| ==> w[j] == s[k + j]
  {
    var x := s[k..k + |w|];
    forall j | 0 <= j < |w| ensures w[j] == s[k + j] { assert x[j] == s[k + j]; }
  }

  lemma NotAtSpace(s: string, w: string, k: nat)
    requires IsWord(w) && k < |s| && IsSpace(s[k])
    ensures !StandsAt(s, w, k)
  {
    if OccursAt(s, w, k) { OccursChars(s, w, k); }
  }

  lemma NotLonger(s: string, w: string, n: nat)
    requires IsWord(w) && n < |s| && IsSpace(s[n]) && OccursAt(s, w, 0)
    ensures |w| <= n
  {
    OccursChars(s, w, 0);
  }

  lemma StandsLater(s: string, w: string, n: nat, k: nat)
    requires IsWord(w) && n <= |s| && (n > 0 ==> IsSpace(s[n - 1]))
    ensures StandsAt(s[n..], w, k) <==> StandsAt(s, w, n + k)
  {
    if n + k + |w| <= |s| { assert s[n..][k..k + |w|] == s[n + k..n + k + |w|]; }
  }

  /** Where a text begins with a word, only that word stands before its end. */
  lemma StandsFirst(s: string, w: string, k: nat)
    requires IsWord(w) && s != "" && !IsSpace(s[0]) && k < |Word(s)|
    ensures StandsAt(s, w, k) <==> k == 0 && w == Word(s)
  {
    var n := |Word(s)|;
    WordMaximal(s);
    assert forall j :: 0 <= j < n ==> s[j] == Word(s)[j];
    if StandsAt(s, w, k) {
      assert k == 0;
      assert |w| >= n;
      if n < |s| { NotLonger(s, w, n); }
      assert w == s[..n] == Word(s);
    }
  }

  ghost predicate Stands(s: string, w: string) { exists k: nat :: StandsAt(s, w, k) }

  lemma StandsBehindSpace(s: string, w: string)
    requires IsWord(w) && s != "" && IsSpace(s[0])
    ensures Stands(s, w) <==> Stands(s[1..], w)
  {
    NotAtSpace(s, w, 0);
    forall k: nat ensures StandsAt(s[1..], w, k) <==> StandsAt(s, w, 1 + k) { StandsLater(s, w, 1, k); }
    if k: nat :| StandsAt(s, w, k) { assert StandsAt(s[1..], w, k - 1); }
  }

  /** Behind a whole word, whatever stands in the rest stands in the text. */
  lemma StandsTail(s: string, w: string, n: nat, k: nat)
    requires IsWord(w) && n <= |s| && (n < |s| ==> IsSpace(s[n]))
    ensures StandsAt(s[n..], w, k) <==> StandsAt(s, w, n + k)
  {
    if n < |s| {
      if k == 0 {
        NotAtSpace(s, w, n);
        NotAtSpace(s[n..], w, 0);
      } else if n + k + |w| <= |s| {
        assert s[n..][k..k + |w|] == s[n + k..n + k + |w|];
      }
    }
  }

  lemma StandsSplit(s: string, w: string, first: string, t: string, n: nat)
    requires w == first ==> StandsAt(s, w, 0)
    requires forall k: nat :: k < n && StandsAt(s, w, k) ==> w == first
    requires forall k: nat :: StandsAt(t, w, k) <==> StandsAt(s, w, n + k)
    ensures Stands(s, w) <==> w == first || Stands(t, w)
  {
    if k: nat :| StandsAt(s, w, k) {
      if k >= n { assert StandsAt(t, w, k - n); }
    }
  }

  lemma StandsBehindWord(s: string, w: string, n: nat)
    requires IsWord(w) && s != "" && !IsSpace(s[0]) && n == |Word(s)|
    ensures Stands(s, w) <==> w == Word(s) || Stands(s[n..], w)
  {
    WordMaximal(s);
    assert 0 < n;
    StandsFirst(s, w, 0);
    forall k: nat | k < n && StandsAt(s, w, k) ensures w == Word(s) { StandsFirst(s, w, k); }
    forall k: nat ensures StandsAt(s[n..], w, k) <==> StandsAt(s, w, n + k) { StandsTail(s, w, n, k); }
    StandsSplit(s, w, Word(s), s[n..], n);
  }

  /** The fields of a text are exactly the words that stand in it. */
  lemma {:induction false} FieldsHas(s: string, w: string)
    requires IsWord(w)
    ensures w in Fields(s) <==> Stands(s, w)
    decreases |s|
  {
    if s == "" {
    } else if IsSpace(s[0]) {
      StandsBehindSpace(s, w);
      FieldsHas(s[1..], w);
    } else {
      StandsBehindWord(s, w, |Word(s)|);
      FieldsHas(s[|Word(s)|..], w);
    }
  }

  // ------------------------------------------------------------ letters and digits

  /** Each small letter becomes the capital in the same place of the alphabet; every other
      character stays. */
  lemma UpperLetters(s: string, i: nat)
    requires i < |s|
    ensures 'a' <= s[i] <= 'z' ==> ToUpper(s)[i] as int - 'A' as int == s[i] as int - 'a' as int
    ensures !('a' <= s[i] <= 'z') ==> ToUpper(s)[i] == s[i]
  {
    assert ToUpper(s)[i] == UpperChar(s[i]);
  }

  /** The digit of a number at the k-th decimal place, units first. */
  function DecimalPlace(n: nat, k: nat): nat
    decreases k
  {
    if k == 0 then n % 10 else DecimalPlace(n / 10, k - 1)
  }

  /** A number is written with its decimal digits, the highest first, and no zero leads. */
  lemma {:induction false} ItoaDecimal(n: nat, k: nat)
    ensures |Itoa(n)| > 1 ==> Itoa(n)[0] != '0'
    ensures k < |Itoa(n)| ==> Itoa(n)[|Itoa(n)| - 1 - k] as int - '0' as int == DecimalPlace(n, k)
    decreases n
  {
    if n < 10 {
    } else {
      ItoaDecimal(n / 10, if k == 0 then 0 else k - 1);
    }
  }
}
