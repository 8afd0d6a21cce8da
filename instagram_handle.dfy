/**
 * The raffle form's check of the user's Instagram handle: the input is trimmed,
 * a blank input is refused with one message, and anything else must match
 * `^@?[a-zA-Z0-9._]{1,30}$` or is refused with a second message.
 */
module InstagramHandle {

  import opened JsText

  const EmptyUserMessage := "Por favor ingresa tu usuario de Instagram"
  const InvalidUserMessage := "Usuario inválido. Solo letras, números, punto y guion bajo"

  /** Longest body the pattern allows after the optional `@`. */
  const MaxBodyLength := 30

  /** The character class `[a-zA-Z0-9._]`. */
  predicate IsHandleChar(c: char) {
    ('a' <= c <= 'z') || ('A' <= c <= 'Z') || ('0' <= c <= '9') || c == '.' || c == '_'
  }

  /** `[a-zA-Z0-9._]{1,30}` matching the whole of `b`. */
  predicate IsHandleBody(b: string) {
    1 <= |b| <= MaxBodyLength && forall k :: 0 <= k < |b| ==> IsHandleChar(b[k])
  }

  /** `/^@?[a-zA-Z0-9._]{1,30}$/.test(s)`. Since `@` is not in the class, the
      optional `@` takes part in a match exactly when `s` starts with one. */
  predicate MatchesHandlePattern(s: string) {
    if |s| > 0 && s[0] == '@' then IsHandleBody(s[1..]) else IsHandleBody(s)
  }

  /** The language of the pattern, read off its shape: the group `@?` consumes
      `n` characters, zero or one `@`, and the body consumes all the rest. */
  ghost predicate InHandleLanguage(s: string) {
    exists n :: 0 <= n <= 1 && n <= |s| && (n == 1 ==> s[0] == '@') && IsHandleBody(s[n..])
  }

  /** The direct test accepts exactly the pattern's language. */
  lemma MatchesIffInLanguage(s: string)
    ensures MatchesHandlePattern(s) <==> InHandleLanguage(s)
  {
    if MatchesHandlePattern(s) {
      if |s| > 0 && s[0] == '@' {
        assert IsHandleBody(s[1..]);
      } else {
        assert s[0..] == s;
      }
    }
    if InHandleLanguage(s) {
      var n :| 0 <= n <= 1 && n <= |s| && (n == 1 ==> s[0] == '@') && IsHandleBody(s[n..]);
      if n == 0 {
        assert s[0..] == s;
        assert !IsHandleChar('@');
      }
    }
  }

  /** Outcome of the check on the form's input. */
  datatype Validation = Accepted(handle: string) | Rejected(message: string)

  /** The two early returns of the submit handler, in order: blank first, then
      the pattern. An accepted handle is the trimmed input, `@` included. */
  function ValidateInput(input: string): Validation {
    var trimmed := Trim(input);
    if trimmed == [] then Rejected(EmptyUserMessage)
    else if !MatchesHandlePattern(trimmed) then Rejected(InvalidUserMessage)
    else Accepted(trimmed)
  }

  /** An accepted handle is the trimmed input and lies in the pattern's
      language; the first message is given exactly for a blank input; no other
      message is ever given. */
  lemma ValidateInputMeaning(input: string)
    ensures var r := ValidateInput(input);
      && (r.Accepted? ==> r.handle == Trim(input) && InHandleLanguage(r.handle))
      && (r == Rejected(EmptyUserMessage) <==> AllWhitespace(input))
      && (r.Rejected? ==> r.message == EmptyUserMessage || r.message == InvalidUserMessage)
  {
    TrimSpec(input);
    MatchesIffInLanguage(Trim(input));
  }

  /** Acceptance is membership of the trimmed input in the pattern's language,
      in both directions. */
  lemma AcceptedIffTrimmedInLanguage(input: string)
    ensures ValidateInput(input).Accepted? <==> InHandleLanguage(Trim(input))
  {
    MatchesIffInLanguage(Trim(input));
  }

  /** An input whose trimmed form is in the language is accepted as that form. */
  lemma AcceptsTrimmedInLanguage(input: string)
    requires InHandleLanguage(Trim(input))
    ensures ValidateInput(input) == Accepted(Trim(input))
  {
    MatchesIffInLanguage(Trim(input));
  }

  /** What a string matching the pattern looks like: at most 31 characters,
      an optional leading `@`, and then one to thirty characters of the class. */
  lemma MatchShape(h: string)
    requires MatchesHandlePattern(h)
    ensures && 1 <= |h| <= MaxBodyLength + 1
            && (IsHandleChar(h[0]) || h[0] == '@')
            && (forall k :: 0 < k < |h| ==> IsHandleChar(h[k]))
            && (h[0] == '@' ==> |h| >= 2)
  {
    if h[0] == '@' {
      var body := h[1..];
      assert forall k :: 0 < k < |h| ==> h[k] == body[k - 1];
    }
  }

  /** An accepted handle has that shape. */
  lemma AcceptedHandleShape(input: string)
    requires ValidateInput(input).Accepted?
    ensures var h := ValidateInput(input).handle;
      && 1 <= |h| <= MaxBodyLength + 1
      && (IsHandleChar(h[0]) || h[0] == '@')
      && (forall k :: 0 < k < |h| ==> IsHandleChar(h[k]))
      && (h[0] == '@' ==> |h| >= 2)
  {
    MatchShape(Trim(input));
  }

  /** A character outside the class after the first position spoils a match. */
  lemma ForeignCharacterSpoilsMatch(t: string, k: nat)
    requires 0 < k < |t| && !IsHandleChar(t[k])
    ensures !MatchesHandlePattern(t)
  {
    if t[0] == '@' {
      assert t[1..][k - 1] == t[k];
    }
  }

  /** A character outside the class anywhere after the first position of the
      trimmed input (an inner space, a `-`, a second `@`) is refused, and no
      request is made. */
  lemma RejectsForeignCharacter(input: string, k: nat)
    requires 0 < k < |Trim(input)| && !IsHandleChar(Trim(input)[k])
    ensures ValidateInput(input) == Rejected(InvalidUserMessage)
  {
    ForeignCharacterSpoilsMatch(Trim(input), k);
  }

  /** More than thirty characters after the optional `@` are refused. */
  lemma RejectsLongBody(input: string)
    requires var t := Trim(input); |t| > MaxBodyLength + 1 || (|t| == MaxBodyLength + 1 && t[0] != '@')
    ensures ValidateInput(input) == Rejected(InvalidUserMessage)
  {
    var t := Trim(input);
    assert !MatchesHandlePattern(t);
  }

  /** A lone `@` has an empty body and is refused. */
  lemma RejectsBareAt()
    ensures ValidateInput("@") == Rejected(InvalidUserMessage)
  {
    TrimOfPadded("", "@", "");
    assert "" + "@" + "" == "@";
  }

  /** Surrounding blanks are dropped before the check, and only they: the
      handle sent is the text between them. */
  lemma AcceptsPaddedHandle(pre: string, h: string, post: string)
    requires AllWhitespace(pre) && AllWhitespace(post) && MatchesHandlePattern(h)
    ensures ValidateInput(pre + h + post) == Accepted(h)
  {
    assert Trimmed(h) by {
      assert IsHandleChar(h[|h| - 1]);
    }
    TrimOfPadded(pre, h, post);
  }

  /** A handle with a dot, an underscore and a digit passes as it is. */
  lemma AcceptedExample()
    ensures ValidateInput("my.user_1") == Accepted("my.user_1")
  {
    assert MatchesHandlePattern("my.user_1");
    AcceptsPaddedHandle("", "my.user_1", "");
    assert "" + "my.user_1" + "" == "my.user_1";
  }

  /** The empty input, and inputs with an inner space or a dash, are refused. */
  lemma RejectedExamples()
    ensures ValidateInput("") == Rejected(EmptyUserMessage)
    ensures ValidateInput("my user") == Rejected(InvalidUserMessage)
    ensures ValidateInput("my-user") == Rejected(InvalidUserMessage)
  {
    TrimOfPadded("", "my user", "");
    assert "" + "my user" + "" == "my user";
    RejectsForeignCharacter("my user", 2);
    TrimOfPadded("", "my-user", "");
    assert "" + "my-user" + "" == "my-user";
    RejectsForeignCharacter("my-user", 2);
  }
}
