/** The result strings the controller answers with, as a tagged type, and the
    way the web client reads them back. */
module Codes {

  import opened Entities

  datatype Code =
    | Good
    | ErrorAuth
    | ErrorProduct
    | ErrorStock
    | ErrorStockOf(productName: string)
    | ErrorEmpty
    | ErrorStatus
    | Error
    | ErrorLogin
    | ErrorEmail
    | Auth
    | NoAuth
    | DeAuth
    | NullUser
    | Admin
    | RegularUser
    | PasswordChanged
    | WrongOldPassword
    | PasswordMismatch

  const StockPrefix := "ERRORSTOCK_"

  /** The exact string the controller returns for each outcome. */
  function Text(c: Code): string
  {
    match c
    case Good => "GOOD"
    case ErrorAuth => "ERRORAUTH"
    case ErrorProduct => "ERRORPRODUCT"
    case ErrorStock => "ERRORSTOCK"
    case ErrorStockOf(name) => StockPrefix + name
    case ErrorEmpty => "ERROREMPTY"
    case ErrorStatus => "ERRORSTATUS"
    case Error => "ERROR"
    case ErrorLogin => "ERRORLOGIN"
    case ErrorEmail => "ERROREMAIL"
    case Auth => "AUTH"
    case NoAuth => "NOAUTH"
    case DeAuth => "DEAUTH"
    case NullUser => "NULL"
    case Admin => "ADMIN"
    case RegularUser => "USER"
    case PasswordChanged => "1. Пароль успешно изменен"
    case WrongOldPassword => "2. Старый пароль введен неверно"
    case PasswordMismatch => "3. Новый пароль не совпадает"
  }

  predicate HasPrefix(s: string, p: string)
  {
    |p| <= |s| && forall i :: 0 <= i < |p| ==> s[i] == p[i]
  }

  /** s starts with the digit d and a full stop. */
  predicate Numbered(s: string, d: char)
  {
    |s| >= 2 && s[0] == d && s[1] == '.'
  }

  /** How the client interprets a reply: exact comparison for the cart and order
      codes, the "ERRORSTOCK_" prefix followed by the product name, and the
      numeric prefix of the account messages. */
  function Parse(s: string): Option<Code>
  {
    if Numbered(s, '1') then Some(PasswordChanged)
    else if Numbered(s, '2') then Some(WrongOldPassword)
    else if Numbered(s, '3') then Some(PasswordMismatch)
    else if HasPrefix(s, StockPrefix) then Some(ErrorStockOf(s[|StockPrefix|..]))
    else if s == "GOOD" then Some(Good)
    else if s == "ERRORAUTH" then Some(ErrorAuth)
    else if s == "ERRORPRODUCT" then Some(ErrorProduct)
    else if s == "ERRORSTOCK" then Some(ErrorStock)
    else if s == "ERROREMPTY" then Some(ErrorEmpty)
    else if s == "ERRORSTATUS" then Some(ErrorStatus)
    else if s == "ERROR" then Some(Error)
    else if s == "ERRORLOGIN" then Some(ErrorLogin)
    else if s == "ERROREMAIL" then Some(ErrorEmail)
    else if s == "AUTH" then Some(Auth)
    else if s == "NOAUTH" then Some(NoAuth)
    else if s == "DEAUTH" then Some(DeAuth)
    else if s == "NULL" then Some(NullUser)
    else if s == "ADMIN" then Some(Admin)
    else if s == "USER" then Some(RegularUser)
    else None
  }

  lemma Mismatch(s: string, p: string, i: nat)
    requires i < |s| && i < |p| && s[i] != p[i]
    ensures !HasPrefix(s, p)
  {
  }

  /** No two outcomes share a reply string: the client recovers every outcome,
      including the name of the product that ran out. */
  lemma ParseText(c: Code)
    ensures Parse(Text(c)) == Some(c)
  {
    match c
    case ErrorStockOf(name) =>
      assert (StockPrefix + name)[0] == 'E';
      assert (StockPrefix + name)[|StockPrefix|..] == name;
    case PasswordChanged => ParseChangedText();
    case WrongOldPassword => ParseWrongOldText();
    case PasswordMismatch => ParseMismatchText();
    case Good => ParseCartText(c);
    case ErrorAuth => ParseCartText(c);
    case ErrorProduct => ParseCartText(c);
    case ErrorStock => ParseCartText(c);
    case ErrorEmpty => ParseCartText(c);
    case ErrorStatus => ParseCartText(c);
    case Error => ParseCartText(c);
    case _ => ParseSessionText(c);
  }

  lemma ParseChangedText()
    ensures Parse(Text(PasswordChanged)) == Some(PasswordChanged)
  {
  }

  lemma ParseWrongOldText()
    ensures Parse(Text(WrongOldPassword)) == Some(WrongOldPassword)
  {
  }

  lemma ParseMismatchText()
    ensures Parse(Text(PasswordMismatch)) == Some(PasswordMismatch)
  {
  }

  lemma ParseCartText(c: Code)
    requires c.Good? || c.ErrorAuth? || c.ErrorProduct? || c.ErrorStock? || c.ErrorEmpty? || c.ErrorStatus? || c.Error?
    ensures Parse(Text(c)) == Some(c)
  {
    if c.ErrorProduct? {
      Mismatch(Text(c), StockPrefix, 5);
    } else if c.ErrorStatus? {
      Mismatch(Text(c), StockPrefix, 7);
    }
  }

  lemma ParseSessionText(c: Code)
    requires c.ErrorLogin? || c.ErrorEmail? || c.Auth? || c.NoAuth? || c.DeAuth? || c.NullUser? || c.Admin? || c.RegularUser?
    ensures Parse(Text(c)) == Some(c)
  {
  }

  lemma TextInjective(a: Code, b: Code)
    requires Text(a) == Text(b)
    ensures a == b
  {
    ParseText(a);
    ParseText(b);
  }
}
