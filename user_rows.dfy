/** Whether the user screen offers Delete on a row. The screen compares the
    row's id with the `user_id` that the login screen stored, which is
    `JSON.stringify` of the id the login response carried. */
module UserRows {
  import opened Wrappers
  import opened Decimal
  import opened JsValues

  /** The ids the model can store: text, or a whole number. */
  predicate IsPlainId(id: Value) {
    id.Str? || (id.Num? && id.r.Floor as real == id.r)
  }

  function EscapeChar(c: char): string {
    if c == '"' then "\\\"" else if c == '\\' then "\\\\" else [c]
  }

  /** The escaping `JSON.stringify` applies inside a string: a backslash
      before each '"' and each '\'. */
  function Escape(s: string): (t: string)
    ensures |t| >= |s|
  {
    if s == [] then [] else EscapeChar(s[0]) + Escape(s[1..])
  }

  /** The reading of `JSON.parse`: a backslash makes the next character literal. */
  function Unescape(t: string): string
    decreases |t|
  {
    if t == [] then []
    else if t[0] == '\\' && |t| >= 2 then [t[1]] + Unescape(t[2..])
    else [t[0]] + Unescape(t[1..])
  }

  lemma {:induction false} UnescapeEscape(s: string)
    ensures Unescape(Escape(s)) == s
  {
    if s != [] {
      UnescapeEscape(s[1..]);
      var t := Escape(s);
      assert t == EscapeChar(s[0]) + Escape(s[1..]);
      if s[0] == '"' || s[0] == '\\' {
        assert t[2..] == Escape(s[1..]);
      } else {
        assert t[1..] == Escape(s[1..]);
      }
    }
  }

  /** `JSON.stringify(id)` as pages/login.js stores it under `user_id`. */
  function StoredUserId(id: Value): string
    requires IsPlainId(id)
  {
    match id
    case Str(s) => "\"" + Escape(s) + "\""
    case Num(r) => IntText(r.Floor)
  }

  /** `user.id != localStorage.getItem("user_id")`: Delete is offered when the
      loose comparison finds the row's id different from what is stored. */
  function OffersDelete(rowId: Value, stored: Option<string>): bool {
    !LooseEqualsStored(rowId, stored)
  }

  /** With numeric ids the stored text is the id's decimal text, which loose
      equality reads back as a number: Delete is offered on exactly the rows
      of other users. */
  lemma NumericIdsHideOnlySelf(rowId: int, loggedIn: int)
    ensures OffersDelete(Num(rowId as real), Some(StoredUserId(Num(loggedIn as real)))) <==> rowId != loggedIn
  {
    IntTextRoundTrip(loggedIn);
    assert IntText(loggedIn) != "" by {
      if loggedIn < 0 {
        assert IntText(loggedIn)[0] == '-';
      }
    }
  }

  /** With text ids the stored text keeps the quotes `JSON.stringify` put
      around it, so it never equals the id and the logged-in user's own row
      offers Delete. */
  lemma TextIdsOfferSelfDelete(id: string)
    ensures OffersDelete(Str(id), Some(StoredUserId(Str(id))))
  {
    assert |StoredUserId(Str(id))| >= |id| + 2;
  }

  /** The smallest instance: the user whose id is "7" sees Delete on their own row. */
  lemma SelfDeleteOfferedForTextSeven()
    ensures StoredUserId(Str("7")) == "\"7\""
    ensures OffersDelete(Str("7"), Some("\"7\""))
  {
  }

  /** `JSON.parse` of what login stored: a quoted string or a whole number in
      its own decimal text; None for null, for "undefined" and for anything else. */
  function ParseStoredId(stored: Option<string>): Option<Value> {
    match stored
    case None => None
    case Some(t) =>
      if |t| >= 2 && t[0] == '"' && t[|t| - 1] == '"' then Some(Str(Unescape(t[1..|t| - 1])))
      else
        var k := ParseInt(t);
        if k.Some? && IntText(k.value) == t then Some(Num(k.value as real)) else None
  }

  lemma {:induction false} ParseStoredIdRoundTrip(id: Value)
    requires IsPlainId(id)
    ensures ParseStoredId(Some(StoredUserId(id))) == Some(id)
  {
    match id
    case Str(s) =>
      var t := StoredUserId(id);
      assert t[1..|t| - 1] == Escape(s);
      UnescapeEscape(s);
    case Num(r) =>
      var t := IntText(r.Floor);
      IntTextRoundTrip(r.Floor);
      assert t[0] != '"' by {
        if r.Floor < 0 {
          assert t[0] == '-';
        } else {
          assert IsDigit(NatText(r.Floor)[0]);
        }
      }
  }

  /** The comparison the screen evidently intends: the row's id against the
      parsed stored id, `user.id !== JSON.parse(localStorage.getItem("user_id"))`. */
  function OffersDeleteIntended(rowId: Value, stored: Option<string>): bool {
    match ParseStoredId(stored)
    case None => true
    case Some(v) => rowId != v
  }

  /** Delete is offered on a row exactly when it is not the logged-in user's,
      whether the ids are text or whole numbers. */
  lemma IntendedHidesExactlySelf(rowId: Value, loggedIn: Value)
    requires IsPlainId(loggedIn)
    ensures OffersDeleteIntended(rowId, Some(StoredUserId(loggedIn))) <==> rowId != loggedIn
  {
    ParseStoredIdRoundTrip(loggedIn);
  }
}
