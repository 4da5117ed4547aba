/** The three regular expressions the client tests its string inputs against,
    `^6[\d]{8}$`, `^[a-zA-Z0-9]{8,10}$` and `^[a-zA-Z0-9-_]{1,100}$`, written
    in a small anchored-regex language: a sequence of bracket classes, each
    with a repetition count {min,max}. FullMatch is what RegExp.prototype.test
    answers for such an anchored pattern; the lemmas give each pattern a plain
    reading over the characters of the string. */
module Patterns {

  /** A range `lo-hi` inside a bracket class; a single character c is Range(c, c). */
  datatype Range = Range(lo: char, hi: char)

  type CharClass = seq<Range>

  /** One atom `[cls]{min,max}`. */
  datatype Piece = Piece(cls: CharClass, min: nat, max: nat)

  /** `^p1 p2 ... pn$` */
  type Pattern = seq<Piece>

  predicate InClass(c: char, cls: CharClass) {
    exists i :: 0 <= i < |cls| && cls[i].lo <= c <= cls[i].hi
  }

  predicate AllIn(s: string, cls: CharClass) {
    forall i :: 0 <= i < |s| ==> InClass(s[i], cls)
  }

  /** Whether the whole of s is matched by p: the first piece takes some
      admissible number k of leading characters and the rest of the pattern
      matches what is left. */
  predicate FullMatch(p: Pattern, s: string)
    decreases |p|
  {
    if p == [] then s == []
    else exists k :: p[0].min <= k <= p[0].max && k <= |s| && AllIn(s[..k], p[0].cls) && FullMatch(p[1..], s[k..])
  }

  /** `\d` (without the u flag) */
  const Digit: CharClass := [Range('0', '9')]
  /** `[a-zA-Z0-9]` */
  const Alnum: CharClass := [Range('a', 'z'), Range('A', 'Z'), Range('0', '9')]
  /** `[a-zA-Z0-9-_]`: the `-` after the range 0-9 cannot start a range, so it and `_` are literal */
  const UserIdClass: CharClass := [Range('a', 'z'), Range('A', 'Z'), Range('0', '9'), Range('-', '-'), Range('_', '_')]

  const PhonePattern: Pattern := [Piece([Range('6', '6')], 1, 1), Piece(Digit, 8, 8)]
  const TransactionIdPattern: Pattern := [Piece(Alnum, 8, 10)]
  const UserIdPattern: Pattern := [Piece(UserIdClass, 1, 100)]

  predicate IsDigit(c: char) {
    '0' <= c <= '9'
  }

  predicate IsAlnum(c: char) {
    'a' <= c <= 'z' || 'A' <= c <= 'Z' || IsDigit(c)
  }

  predicate IsUserIdChar(c: char) {
    IsAlnum(c) || c == '-' || c == '_'
  }

  /** A Cameroonian mobile number as the client accepts it: '6' then eight digits. */
  predicate IsPhoneNumber(s: string) {
    |s| == 9 && s[0] == '6' && forall i :: 1 <= i < |s| ==> IsDigit(s[i])
  }

  predicate IsTransactionId(s: string) {
    8 <= |s| <= 10 && forall i :: 0 <= i < |s| ==> IsAlnum(s[i])
  }

  predicate IsUserId(s: string) {
    1 <= |s| <= 100 && forall i :: 0 <= i < |s| ==> IsUserIdChar(s[i])
  }

  /** A one-piece pattern matches exactly the strings of admissible length
      drawn from its class. */
  lemma SinglePiece(q: Piece, s: string)
    ensures FullMatch([q], s) <==> q.min <= |s| <= q.max && AllIn(s, q.cls)
  {
    assert [q][1..] == [];
    if q.min <= |s| <= q.max && AllIn(s, q.cls) {
      assert s[..|s|] == s;
      assert FullMatch([q][1..], s[|s|..]);
    }
    if FullMatch([q], s) {
      var k :| q.min <= k <= q.max && k <= |s| && AllIn(s[..k], q.cls) && FullMatch([q][1..], s[k..]);
      assert k == |s|;
      assert s[..k] == s;
    }
  }

  lemma DigitClass(c: char)
    ensures InClass(c, Digit) <==> IsDigit(c)
  {
    if IsDigit(c) {
      assert Digit[0].lo <= c <= Digit[0].hi;
    }
  }

  lemma AlnumClass(c: char)
    ensures InClass(c, Alnum) <==> IsAlnum(c)
  {
    if 'a' <= c <= 'z' {
      assert Alnum[0].lo <= c <= Alnum[0].hi;
    } else if 'A' <= c <= 'Z' {
      assert Alnum[1].lo <= c <= Alnum[1].hi;
    } else if IsDigit(c) {
      assert Alnum[2].lo <= c <= Alnum[2].hi;
    }
  }

  lemma UserIdCharClass(c: char)
    ensures InClass(c, UserIdClass) <==> IsUserIdChar(c)
  {
    if 'a' <= c <= 'z' {
      assert UserIdClass[0].lo <= c <= UserIdClass[0].hi;
    } else if 'A' <= c <= 'Z' {
      assert UserIdClass[1].lo <= c <= UserIdClass[1].hi;
    } else if IsDigit(c) {
      assert UserIdClass[2].lo <= c <= UserIdClass[2].hi;
    } else if c == '-' {
      assert UserIdClass[3].lo <= c <= UserIdClass[3].hi;
    } else if c == '_' {
      assert UserIdClass[4].lo <= c <= UserIdClass[4].hi;
    }
  }

  /** `^6[\d]{8}$` accepts exactly a '6' followed by eight decimal digits. */
  lemma PhonePatternMeaning(s: string)
    ensures FullMatch(PhonePattern, s) <==> IsPhoneNumber(s)
  {
    var six := Piece([Range('6', '6')], 1, 1);
    var digits := Piece(Digit, 8, 8);
    assert PhonePattern[0] == six && PhonePattern[1..] == [digits];
    if |s| >= 1 {
      SinglePiece(digits, s[1..]);
      forall i | 0 <= i < |s[1..]|
        ensures InClass(s[1..][i], Digit) <==> IsDigit(s[i + 1])
      {
        DigitClass(s[i + 1]);
      }
      if s[0] == '6' {
        assert six.cls[0].lo <= s[0] <= six.cls[0].hi;
      }
      assert InClass(s[0], six.cls) <==> s[0] == '6';
      assert AllIn(s[..1], six.cls) <==> s[0] == '6';
    }
    if FullMatch(PhonePattern, s) {
      var k :| six.min <= k <= six.max && k <= |s| && AllIn(s[..k], six.cls) && FullMatch([digits], s[k..]);
      assert k == 1;
    }
    if IsPhoneNumber(s) {
      assert AllIn(s[..1], six.cls) && FullMatch([digits], s[1..]);
    }
  }

  /** `^[a-zA-Z0-9]{8,10}$` accepts exactly 8 to 10 ASCII letters or digits. */
  lemma TransactionIdPatternMeaning(s: string)
    ensures FullMatch(TransactionIdPattern, s) <==> IsTransactionId(s)
  {
    SinglePiece(Piece(Alnum, 8, 10), s);
    forall i | 0 <= i < |s| ensures InClass(s[i], Alnum) <==> IsAlnum(s[i]) {
      AlnumClass(s[i]);
    }
  }

  /** `^[a-zA-Z0-9-_]{1,100}$` accepts exactly 1 to 100 ASCII letters, digits, '-' or '_'. */
  lemma UserIdPatternMeaning(s: string)
    ensures FullMatch(UserIdPattern, s) <==> IsUserId(s)
  {
    SinglePiece(Piece(UserIdClass, 1, 100), s);
    forall i | 0 <= i < |s| ensures InClass(s[i], UserIdClass) <==> IsUserIdChar(s[i]) {
      UserIdCharClass(s[i]);
    }
  }
}
