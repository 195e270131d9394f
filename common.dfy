/** Values shared by the components of the Vitalize companion app: optional
    and failure-carrying results, JavaScript truthiness of optional strings,
    the error objects thrown by Firebase and fetch, toasts, the signed-in user
    and calendar dates. */
module Common {

  datatype Option<+T> = None | Some(value: T)

  datatype Result<+T, +E> = Success(value: T) | Failure(error: E)

  /** `s.startsWith(prefix)` */
  predicate StartsWith(s: string, prefix: string) {
    |prefix| <= |s| && s[..|prefix|] == prefix
  }

  /** JavaScript truthiness of a string that may be `null`/`undefined`:
      both the absent value and "" are falsy. */
  predicate Truthy(o: Option<string>) {
    o.Some? && o.value != ""
  }

  /** `o || fallback` for an optional string. */
  function OrElse(o: Option<string>, fallback: string): (r: string)
    ensures Truthy(o) ==> r == o.value
    ensures !Truthy(o) ==> r == fallback
  {
    if Truthy(o) then o.value else fallback
  }

  /** A thrown error as the handlers read it: `error.code` and
      `error.message`, where "" stands for an absent or empty property
      (both are falsy in the source's tests). */
  datatype ErrorValue = ErrorValue(code: string, message: string)

  /** One call of `toast({ title, description, variant })`;
      `destructive` is `variant: "destructive"`. */
  datatype Toast = Toast(title: string, description: string, destructive: bool)

  /** The Firebase `User` fields the components read. */
  datatype AuthUser = AuthUser(
    uid: string,
    email: Option<string>,
    displayName: Option<string>,
    photoURL: Option<string>)

  /** A calendar day; time of day is not modelled. */
  datatype CalendarDate = CalendarDate(year: nat, month: nat, day: nat)

  /** Chronological order on calendar days. */
  predicate DateLessEq(a: CalendarDate, b: CalendarDate) {
    a.year < b.year
    || (a.year == b.year && a.month < b.month)
    || (a.year == b.year && a.month == b.month && a.day <= b.day)
  }

  /** One validation issue reported by a zod schema: the field path and
      the message shown under that field. */
  datatype Issue = Issue(path: string, message: string)

  /** `String.prototype.toUpperCase` on one character, ASCII letters only. */
  function ToUpperAscii(c: char): (u: char)
    ensures 'a' <= c <= 'z' ==> 'A' <= u <= 'Z' && u as int == c as int - 32
    ensures !('a' <= c <= 'z') ==> u == c
  {
    if 'a' <= c <= 'z' then (c as int - 32) as char else c
  }
}
