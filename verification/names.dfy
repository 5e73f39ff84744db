/**
  Display names of chat participants.

  Every admitted connection is named `"User" + strconv.Itoa(n)` where `n` is a
  process-wide counter that is incremented before use (room.go, generateUniqueUser).
  The counter is plain state here: the mutex that guards it in the program only
  serialises callers, which a sequential model does already.
 */
module Names {
  import opened Optional

  predicate IsDigit(c: char) {
    '0' <= c <= '9'
  }

  predicate AllDigits(s: string) {
    forall i :: 0 <= i < |s| ==> IsDigit(s[i])
  }

  function DigitChar(d: nat): (c: char)
    requires d < 10
    ensures IsDigit(c)
  {
    ('0' as int + d) as char
  }

  function DigitValue(c: char): (d: nat)
    requires IsDigit(c)
    ensures d < 10
  {
    c as int - '0' as int
  }

  /** `strconv.Itoa` on a non-negative integer: shortest decimal form, no sign. */
  function Itoa(n: nat): (s: string)
    ensures |s| >= 1
    ensures AllDigits(s)
    ensures n > 0 ==> s[0] != '0'
    ensures s[0] == '0' ==> s == "0"
    decreases n
  {
    if n < 10 then [DigitChar(n)] else Itoa(n / 10) + [DigitChar(n % 10)]
  }

  /** The number a string of decimal digits denotes (the reading direction of `Itoa`). */
  function DecimalValue(s: string): nat
    requires AllDigits(s)
    decreases |s|
  {
    if |s| == 0 then 0 else DecimalValue(s[..|s| - 1]) * 10 + DigitValue(s[|s| - 1])
  }

  lemma {:induction false} DecimalValueOfItoa(n: nat)
    ensures DecimalValue(Itoa(n)) == n
    decreases n
  {
    if n >= 10 {
      var s := Itoa(n);
      assert s[..|s| - 1] == Itoa(n / 10);
      DecimalValueOfItoa(n / 10);
    }
  }

  lemma ItoaInjective(a: nat, b: nat)
    ensures Itoa(a) == Itoa(b) ==> a == b
  {
    DecimalValueOfItoa(a);
    DecimalValueOfItoa(b);
  }

  const UserPrefix: string := "User"

  function UserName(n: nat): string {
    UserPrefix + Itoa(n)
  }

  /** Recovers the counter value from a minted name; `None` for anything not of the form `User<digits>`. */
  function ParseUserName(name: string): (r: Option<nat>)
    ensures r.Some? ==> |name| > |UserPrefix| && name[..|UserPrefix|] == UserPrefix
  {
    if |name| > |UserPrefix| && name[..|UserPrefix|] == UserPrefix && AllDigits(name[|UserPrefix|..])
    then Some(DecimalValue(name[|UserPrefix|..]))
    else None
  }

  lemma ParseUserNameOfUserName(n: nat)
    ensures ParseUserName(UserName(n)) == Some(n)
  {
    var name := UserName(n);
    assert name[|UserPrefix|..] == Itoa(n);
    DecimalValueOfItoa(n);
  }

  lemma UserNameInjective(a: nat, b: nat)
    ensures UserName(a) == UserName(b) ==> a == b
  {
    ParseUserNameOfUserName(a);
    ParseUserNameOfUserName(b);
  }

  /** The counter after a call, and the name that call returned. */
  datatype Minted = Minted(counter: nat, name: string)

  /** generateUniqueUser: bump the counter, then name the caller after the new value. */
  function GenerateUniqueUser(counter: nat): (m: Minted)
    ensures m.counter == counter + 1
    ensures ParseUserName(m.name) == Some(m.counter)
    ensures m.name[|UserPrefix|] != '0'
    ensures counter == 0 ==> m.name == "User1"
  {
    ParseUserNameOfUserName(counter + 1);
    Minted(counter + 1, UserName(counter + 1))
  }

  /** Two calls made at different counter values never return the same name. */
  lemma GeneratedNamesDistinct(c1: nat, c2: nat)
    requires c1 != c2
    ensures GenerateUniqueUser(c1).name != GenerateUniqueUser(c2).name
  {
    UserNameInjective(c1 + 1, c2 + 1);
  }
}
