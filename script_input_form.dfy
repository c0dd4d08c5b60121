/** The script input form of the dashboard: topic, content, tone and duration,
    the clamp applied to a typed duration, and the guard that lets a script be
    requested only when topic and content hold some text. */
module ScriptInputForm {
  import opened Text

  const DefaultTone := "professional"
  const DefaultDuration := 5

  // ---------------------------------------------------------------------------
  // Reading a typed number

  /** `Number.parseInt(s)` without a radix, for decimal text: leading whitespace
      is skipped, one sign is read, then as many digits as follow; anything after
      them is ignored. `None` stands for `NaN`, when no digit follows. */
  function ParseInt(s: string): Option<int>
  {
    ParseSigned(TrimStart(s))
  }

  /** The part of `parseInt` after the whitespace: an optional sign and digits. */
  function ParseSigned(t: string): Option<int>
  {
    var signed := t != "" && (t[0] == '-' || t[0] == '+');
    var ds := LeadingDigits(if signed then t[1..] else t);
    var magnitude: int := if ds == "" then 0 else DigitsValue(ds);
    if ds == "" then None
    else if signed && t[0] == '-' then Some(-magnitude)
    else Some(magnitude)
  }

  /** Text that does not open with whitespace is read as it stands. */
  lemma ParseIntUnblank(t: string)
    requires t == "" || !IsSpace(t[0])
    ensures ParseInt(t) == ParseSigned(t)
  {
    if t != "" {
      TrimStartDrops("", t);
      assert "" + t == t;
    }
  }

  /** Leading whitespace does not change the number read. */
  lemma ParseIntAfterBlanks(ws: string, t: string)
    requires forall i :: 0 <= i < |ws| ==> IsSpace(ws[i])
    requires t != "" && !IsSpace(t[0])
    ensures ParseInt(ws + t) == ParseInt(t)
  {
    TrimStartDrops(ws, t);
    ParseIntUnblank(t);
  }

  /** Digits followed by a non-digit, or by nothing, are read as their value. */
  lemma ParseIntDigits(ds: string, rest: string)
    requires ds != "" && AllDigits(ds)
    requires rest == "" || !IsDigit(rest[0])
    ensures ParseInt(ds + rest) == Some(DigitsValue(ds) as int)
  {
    var t := ds + rest;
    assert t[0] == ds[0];
    ParseIntUnblank(t);
    LeadingDigitsOf(ds, rest);
    ParseSignedUnsigned(t, ds);
  }

  lemma ParseSignedUnsigned(t: string, ds: string)
    requires t != "" && t[0] != '-' && t[0] != '+'
    requires ds != "" && LeadingDigits(t) == ds
    ensures ParseSigned(t) == Some(DigitsValue(ds) as int)
  {
  }

  /** A minus sign before such digits negates their value. */
  lemma ParseIntMinusDigits(ds: string, rest: string)
    requires ds != "" && AllDigits(ds)
    requires rest == "" || !IsDigit(rest[0])
    ensures ParseInt("-" + ds + rest) == Some(-(DigitsValue(ds) as int))
  {
    var t := "-" + ds + rest;
    ParseIntUnblank(t);
    ParseSignedMinus(ds, rest);
  }

  lemma ParseSignedMinus(ds: string, rest: string)
    requires ds != "" && AllDigits(ds)
    requires rest == "" || !IsDigit(rest[0])
    ensures ParseSigned("-" + ds + rest) == Some(-(DigitsValue(ds) as int))
  {
    var t := "-" + ds + rest;
    assert t[0] == '-';
    assert t[1..] == ds + rest;
    LeadingDigitsOf(ds, rest);
    ParseSignedNegative(t, ds);
  }

  lemma ParseSignedNegative(t: string, ds: string)
    requires t != "" && t[0] == '-'
    requires ds != "" && LeadingDigits(t[1..]) == ds
    ensures ParseSigned(t) == Some(-(DigitsValue(ds) as int))
  {
  }

  /** A numeral with an optional minus sign reads back as its value, whatever
      non-digit text follows it. */
  lemma ParseIntNumeral(negative: bool, n: nat, rest: string)
    requires rest == "" || !IsDigit(rest[0])
    ensures ParseInt((if negative then "-" else "") + DecimalString(n) + rest)
         == Some(if negative then -(n as int) else n)
  {
    DecimalRoundTrip(n);
    if negative {
      ParseIntMinusDigits(DecimalString(n), rest);
    } else {
      ParseIntDigits(DecimalString(n), rest);
      assert "" + DecimalString(n) + rest == DecimalString(n) + rest;
    }
  }

  /** Text whose first non-blank character is no digit and no sign is not a
      number. */
  lemma ParseIntNotNumber(ws: string, rest: string)
    requires forall i :: 0 <= i < |ws| ==> IsSpace(ws[i])
    requires rest == "" || (!IsSpace(rest[0]) && !IsDigit(rest[0]) && rest[0] != '-' && rest[0] != '+')
    ensures ParseInt(ws + rest) == None
  {
    if rest == "" {
      assert ws + rest == ws;
      TrimStartSuffix(ws);
    } else {
      TrimStartDrops(ws, rest);
    }
  }

  /** `Math.max(1, Number.parseInt(value) || 1)`: `NaN` and 0 are falsy and give
      1, and the result is clamped from below only. */
  function Duration(value: string): (d: int)
    ensures d >= 1
    ensures ParseInt(value).Some? && ParseInt(value).value >= 1 ==> d == ParseInt(value).value
    ensures ParseInt(value).None? || ParseInt(value).value < 1 ==> d == 1
  {
    var parsed := ParseInt(value);
    var n := if parsed.Some? && parsed.value != 0 then parsed.value else 1;
    if 1 >= n then 1 else n
  }

  /** A typed whole number of minutes is kept, with no upper bound; a fraction or
      an exponent is cut off at the first non-digit. */
  lemma DurationKeeps(n: nat, rest: string)
    requires n >= 1
    requires rest == "" || !IsDigit(rest[0])
    ensures Duration(DecimalString(n) + rest) == n
  {
    ParseIntNumeral(false, n, rest);
    assert "" + DecimalString(n) + rest == DecimalString(n) + rest;
  }

  /** Zero and negative numbers become one minute. */
  lemma DurationNonPositive(negative: bool, n: nat, rest: string)
    requires negative || n == 0
    requires rest == "" || !IsDigit(rest[0])
    ensures Duration((if negative then "-" else "") + DecimalString(n) + rest) == 1
  {
    ParseIntNumeral(negative, n, rest);
  }

  /** Text that is no number, the empty text included, becomes one minute. */
  lemma DurationNotNumber(ws: string, rest: string)
    requires forall i :: 0 <= i < |ws| ==> IsSpace(ws[i])
    requires rest == "" || (!IsSpace(rest[0]) && !IsDigit(rest[0]) && rest[0] != '-' && rest[0] != '+')
    ensures Duration(ws + rest) == 1
  {
    ParseIntNotNumber(ws, rest);
  }

  // ---------------------------------------------------------------------------
  // The form

  /** Some character that is not whitespace. */
  predicate HasText(s: string)
  {
    exists i :: 0 <= i < |s| && !IsSpace(s[i])
  }

  /** What `onGenerate` receives. */
  datatype GenerateRequest = GenerateRequest(topic: string, content: string, tone: string, duration: int)

  class Form {
    var topic: string
    var content: string
    var tone: string
    var duration: int

    /** The duration shown is always at least one minute. */
    predicate Valid()
      reads this
    {
      duration >= 1
    }

    constructor ()
      ensures Valid()
      ensures topic == "" && content == "" && tone == DefaultTone && duration == DefaultDuration
    {
      topic, content, tone, duration := "", "", DefaultTone, DefaultDuration;
    }

    method ChangeTopic(value: string)
      requires Valid()
      modifies this
      ensures Valid() && topic == value
      ensures content == old(content) && tone == old(tone) && duration == old(duration)
    {
      topic := value;
    }

    method ChangeContent(value: string)
      requires Valid()
      modifies this
      ensures Valid() && content == value
      ensures topic == old(topic) && tone == old(tone) && duration == old(duration)
    {
      content := value;
    }

    method ChangeTone(value: string)
      requires Valid()
      modifies this
      ensures Valid() && tone == value
      ensures topic == old(topic) && content == old(content) && duration == old(duration)
    {
      tone := value;
    }

    /** The duration input's change handler: the typed text is clamped. */
    method ChangeDuration(value: string)
      modifies this
      ensures Valid() && duration == Duration(value)
      ensures topic == old(topic) && content == old(content) && tone == old(tone)
    {
      duration := Duration(value);
    }

    /** `handleSubmit`: a script is requested exactly when topic and content
        each hold a non-blank character, with the untrimmed texts, the tone and
        the duration. */
    method HandleSubmit() returns (generated: Option<GenerateRequest>)
      requires Valid()
      ensures generated.Some? <==> HasText(topic) && HasText(content)
      ensures generated.Some? ==> generated.value == GenerateRequest(topic, content, tone, duration)
      ensures generated.Some? ==> generated.value.duration >= 1
    {
      TrimEmpty(topic);
      TrimEmpty(content);
      if Trim(topic) != "" && Trim(content) != "" {
        generated := Some(GenerateRequest(topic, content, tone, duration));
      } else {
        generated := None;
      }
    }
  }
}
