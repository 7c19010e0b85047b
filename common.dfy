/** Values shared by the storefront's pages: optional values, the way an awaited
    REST call ends, the session flags, the decimal text of an integer (as a template literal prints
    it) and the characters that `String.prototype.trim` strips. */
module Common {

  datatype Option<+T> = None | Some(value: T)

  /** How an awaited REST call ends: either the server answered (with its
      `success` flag and the `data` it sent back), or the call threw (an HTTP
      error status or a network failure), possibly with the server's message. */
  datatype Reply<+T> = Reply(success: bool, data: T) | Thrown(message: Option<string>)

  function DigitChar(d: nat): (c: char)
    requires d < 10
    ensures '0' <= c <= '9'
  {
    "0123456789"[d]
  }

  /** Decimal digits of `n`, most significant first, without leading zeros. */
  function NatToString(n: nat): (s: string)
    ensures 1 <= |s|
    ensures forall i :: 0 <= i < |s| ==> '0' <= s[i] <= '9'
    ensures (s[0] == '0') <==> n == 0
  {
    if n < 10 then [DigitChar(n)] else NatToString(n / 10) + [DigitChar(n % 10)]
  }

  /** How a template literal such as `${n}` prints an integer. */
  function IntToString(n: int): (s: string)
    ensures 1 <= |s|
    ensures (s[0] == '-') <==> n < 0
  {
    if n < 0 then "-" + NatToString(-n) else NatToString(n)
  }

  /** The two session flags of the authentication context, from the signed-in
      user's role (None when nobody is signed in): signed in when a user is
      present, administrator when that user's role is "admin". */
  predicate IsAuthenticated(role: Option<string>) {
    role.Some?
  }

  predicate IsAdmin(role: Option<string>) {
    role == Some("admin")
  }

  /** WhiteSpace and LineTerminator code points of ECMAScript, the set that
      `String.prototype.trim` removes from both ends of a string. */
  predicate IsJsWhitespace(c: char) {
    var n := c as int;
    n == 0x09 || n == 0x0A || n == 0x0B || n == 0x0C || n == 0x0D || n == 0x20
    || n == 0xA0 || n == 0x1680 || (0x2000 <= n <= 0x200A)
    || n == 0x2028 || n == 0x2029 || n == 0x202F || n == 0x205F || n == 0x3000
    || n == 0xFEFF
  }
}
