/** Values shared by every part of the TaskFlow model: the optional value, the
    uniform result object that every mutating server action returns, and the
    decimal rendering of numbers used in labels and messages. */
module Common {

  datatype Option<+T> = None | Some(value: T)

  /** `{ success: true, <id>? }` or `{ success: false, errors: { field: [messages] } }`.
      `id` is the new record's id for the create actions and None otherwise. */
  datatype ActionResult = Success(id: Option<string>) | Failure(errors: map<string, seq<string>>)

  /** The key under which a form-level (not field-specific) error is reported. */
  const FormKey := "_form"

  function FormError(message: string): ActionResult {
    Failure(map[FormKey := [message]])
  }

  function DigitChar(d: nat): char
    requires d < 10
  {
    "0123456789"[d]
  }

  function DigitValue(c: char): nat {
    if '0' <= c <= '9' then (c as int - '0' as int) as nat else 0
  }

  /** The decimal rendering of a natural number, as a JavaScript template literal prints it. */
  function NatToString(n: nat): (s: string)
    ensures |s| >= 1
    ensures forall i | 0 <= i < |s| :: '0' <= s[i] <= '9'
    ensures n >= 10 ==> s[0] != '0'
  {
    if n < 10 then [DigitChar(n)] else NatToString(n / 10) + [DigitChar(n % 10)]
  }

  /** Reads a string of decimal digits back as a number. */
  function ParseDecimal(s: string): nat {
    if s == [] then 0 else ParseDecimal(s[..|s| - 1]) * 10 + DigitValue(s[|s| - 1])
  }

  /** Rendering loses nothing: different numbers get different labels. */
  lemma {:induction false} NatToStringRoundTrip(n: nat)
    ensures ParseDecimal(NatToString(n)) == n
  {
    var s := NatToString(n);
    if n >= 10 {
      NatToStringRoundTrip(n / 10);
      assert s[..|s| - 1] == NatToString(n / 10);
      assert DigitValue(s[|s| - 1]) == n % 10;
    } else {
      assert s[..|s| - 1] == [];
    }
  }

  lemma NatToStringInjective(m: nat, n: nat)
    requires NatToString(m) == NatToString(n)
    ensures m == n
  {
    NatToStringRoundTrip(m);
    NatToStringRoundTrip(n);
  }
}
