/**
 * The profile forms' field rules, shared by both profile pages: a name of
 * at least two characters once trimmed, an Indian mobile number, the loose
 * email shape and, for owners, a hostel name of at least three characters.
 */
module Validation {
  import opened Seqs
  import opened Text

  const NameMessage: string := "Name must be at least 2 characters."
  const EmailMessage: string := "Enter a valid email address."
  const PhoneMessage: string := "Phone must be +91 followed by 10 digits."
  const HostelNameMessage: string := "Hostel name is required."

  /** `!s || s.trim().length < n` rejects; this is its negation. */
  predicate LongEnough(s: string, n: nat) {
    s != "" && |Trim(s)| >= n
  }

  /** /^\+91\d{10}$/: "+91" and exactly ten digits, nothing else. */
  predicate PhoneShape(s: string) {
    |s| == 13 && s[..3] == "+91" && forall i :: 3 <= i < 13 ==> IsDigit(s[i])
  }

  /** The phone rule: present, and of that shape once every white-space character is removed. */
  predicate ValidPhone(phone: string) {
    phone != "" && PhoneShape(RemoveSpaces(phone))
  }

  /** Spaces may be typed anywhere in the number: "+91", a space, five digits,
      a space and five more digits passes. */
  lemma SpacedPhoneAccepted(front: string, back: string)
    requires |front| == 5 && forall i :: 0 <= i < 5 ==> IsDigit(front[i])
    requires |back| == 5 && forall i :: 0 <= i < 5 ==> IsDigit(back[i])
    ensures ValidPhone("+91" + (" " + (front + (" " + back))))
  {
    var digits := front + back;
    DigitsNoSpace(front);
    DigitsNoSpace(back);
    assert RemoveSpaces(front + (" " + back)) == digits by {
      RemoveSpacesSpace(back);
      RemoveSpacesKeeps(back);
      RemoveSpacesPrefix(front, " " + back);
    }
    CountryCodeThenSpace(front + (" " + back));
    assert forall i :: 0 <= i < 10 ==> IsDigit(digits[i]) by {
      forall i | 0 <= i < 10 ensures IsDigit(digits[i]) {
        if i >= 5 {
          assert digits[i] == back[i - 5];
        }
      }
    }
    PrefixedDigitsShape(digits);
  }

  /** The space after the country code is dropped. */
  lemma CountryCodeThenSpace(rest: string)
    ensures RemoveSpaces("+91" + (" " + rest)) == "+91" + RemoveSpaces(rest)
  {
    assert forall i :: 0 <= i < 3 ==> !IsSpace("+91"[i]);
    RemoveSpacesSpace(rest);
    RemoveSpacesPrefix("+91", " " + rest);
  }

  lemma DigitsNoSpace(d: string)
    requires forall i :: 0 <= i < |d| ==> IsDigit(d[i])
    ensures forall i :: 0 <= i < |d| ==> !IsSpace(d[i])
  {
    forall i | 0 <= i < |d| ensures !IsSpace(d[i]) {
      assert IsDigit(d[i]);
    }
  }

  /** "+91", one space and the ten digits passes. */
  lemma OneSpacePhoneAccepted(d: string)
    requires |d| == 10 && forall i :: 0 <= i < 10 ==> IsDigit(d[i])
    ensures ValidPhone("+91" + (" " + d))
  {
    DigitsNoSpace(d);
    RemoveSpacesKeeps(d);
    CountryCodeThenSpace(d);
    PrefixedDigitsShape(d);
  }

  /** "+91" followed by ten digits has the phone shape. */
  lemma PrefixedDigitsShape(d: string)
    requires |d| == 10 && forall i :: 0 <= i < 10 ==> IsDigit(d[i])
    ensures PhoneShape("+91" + d)
  {
    var s := "+91" + d;
    assert s[..3] == "+91";
    forall i | 3 <= i < 13 ensures IsDigit(s[i]) {
      assert s[i] == d[i - 3];
    }
  }

  /** A number with a letter among its digits is refused. */
  lemma LetterInPhoneRefused(phone: string)
    requires |phone| == 13 && phone[..3] == "+91" && !IsDigit(phone[12]) && !IsSpace(phone[12])
    ensures !PhoneShape(phone)
  {
  }

  /** /\S+@\S+\.\S+/ tested anywhere in s: a non-space character, '@', one or
      more non-space characters, '.', and a non-space character. */
  predicate EmailShape(s: string) {
    exists a, b | 0 < a && a + 1 < b && b + 1 < |s| :: EmailAt(s, a, b)
  }

  /** The '@' at a and the '.' at b, with the non-space runs the pattern needs around them. */
  predicate EmailAt(s: string, a: int, b: int) {
    && (0 < a && a + 1 < b && b + 1 < |s|)
    && (s[a] == '@' && s[b] == '.')
    && (!IsSpace(s[a - 1]) && !IsSpace(s[b + 1]))
    && (forall k :: a < k < b ==> !IsSpace(s[k]))
  }

  predicate ValidEmail(email: string) {
    email != "" && EmailShape(email)
  }

  /** The test is not anchored: text around a valid address does not stop it. */
  lemma EmailShapeExtends(pre: string, s: string, post: string)
    requires EmailShape(s)
    ensures EmailShape(pre + s + post)
  {
    var t := pre + s + post;
    forall a: int, b: int | EmailAt(s, a, b) ensures EmailShape(t) {
      var x, y := |pre| + a, |pre| + b;
      assert t[x] == s[a] && t[y] == s[b] && t[x - 1] == s[a - 1] && t[y + 1] == s[b + 1];
      forall k | x < k < y ensures !IsSpace(t[k]) {
        assert t[k] == s[k - |pre|];
      }
      assert EmailAt(t, x, y);
    }
  }

  /** An address without '@' is refused. */
  lemma EmailNeedsAt(s: string)
    requires '@' !in s
    ensures !EmailShape(s)
  {
    forall a: int, b: int ensures !EmailAt(s, a, b) {
      if 0 <= a < |s| {
        assert s[a] in s;
      }
    }
  }
}
