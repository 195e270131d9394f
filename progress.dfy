/** The progress tracker card: the form's rules, the calendar's bounds and
    `onSubmit`, which stores one entry per calendar day under
    `usuarios/{uid}/progresso/{yyyy-MM-dd}`. Weight and body fat are the
    already-parsed numbers. */
module Progress {
  import opened Common
  import opened Firestore

  // ---------------------------------------------------------------------
  // The document id: `format(date, "yyyy-MM-dd")`
  // ---------------------------------------------------------------------

  predicate IsDigit(c: char) {
    '0' <= c <= '9'
  }

  predicate AllDigits(s: string) {
    forall i :: 0 <= i < |s| ==> IsDigit(s[i])
  }

  function DigitChar(d: nat): (c: char)
    requires d < 10
    ensures IsDigit(c) && c as int - '0' as int == d
  {
    ('0' as int + d) as char
  }

  /** The decimal digits of `n`, without leading zeros. */
  function Digits(n: nat): (s: string)
    ensures |s| >= 1 && AllDigits(s)
    decreases n
  {
    if n < 10 then [DigitChar(n)] else Digits(n / 10) + [DigitChar(n % 10)]
  }

  function Zeros(k: nat): (s: string)
    ensures |s| == k && forall i :: 0 <= i < k ==> s[i] == '0'
  {
    seq(k, _ => '0')
  }

  /** A date-fns numeric token (`yyyy`, `MM`, `dd`): the digits of `n`
      left-padded with zeros to at least `width` characters. */
  function Pad(n: nat, width: nat): (s: string)
    ensures |s| >= width && AllDigits(s)
  {
    var d := Digits(n);
    (if |d| < width then Zeros(width - |d|) else []) + d
  }

  /** The number a digit string denotes. */
  function DigitsValue(s: string): nat
    requires AllDigits(s)
    decreases |s|
  {
    if s == [] then 0 else DigitsValue(s[..|s| - 1]) * 10 + (s[|s| - 1] as int - '0' as int)
  }

  lemma {:induction false} DigitsRoundTrip(n: nat)
    ensures DigitsValue(Digits(n)) == n
    decreases n
  {
    if n >= 10 {
      var s := Digits(n);
      assert s[..|s| - 1] == Digits(n / 10);
      DigitsRoundTrip(n / 10);
    }
  }

  lemma {:induction false} LeadingZeros(k: nat, s: string)
    requires AllDigits(s)
    ensures DigitsValue(Zeros(k) + s) == DigitsValue(s)
    decreases |s|, k
  {
    if s == [] {
      assert Zeros(k) + s == Zeros(k);
      if k > 0 {
        assert Zeros(k)[..k - 1] == Zeros(k - 1) + [];
        LeadingZeros(k - 1, []);
        assert Zeros(k - 1) + [] == Zeros(k - 1);
      }
    } else {
      var t := Zeros(k) + s;
      assert t[..|t| - 1] == Zeros(k) + s[..|s| - 1];
      LeadingZeros(k, s[..|s| - 1]);
    }
  }

  /** Reading a padded token back gives the number: the padding loses
      nothing. */
  lemma PadRoundTrip(n: nat, width: nat)
    ensures DigitsValue(Pad(n, width)) == n
  {
    var d := Digits(n);
    DigitsRoundTrip(n);
    if |d| < width {
      LeadingZeros(width - |d|, d);
    } else {
      assert Pad(n, width) == d;
    }
  }

  /** The id of the day's entry. */
  function DateKey(d: CalendarDate): string {
    Pad(d.year, 4) + "-" + Pad(d.month, 2) + "-" + Pad(d.day, 2)
  }

  lemma DashSplit(a: string, b: string, c: string, e: string)
    requires AllDigits(a) && AllDigits(c)
    requires a + "-" + b == c + "-" + e
    ensures a == c && b == e
  {
    var s := a + "-" + b;
    assert s[|a|] == '-' && (c + "-" + e)[|c|] == '-';
    assert |a| == |c|;
    assert a == s[..|a|] && c == s[..|c|];
    assert b == s[|a| + 1..] && e == s[|c| + 1..];
  }

  /** Two days share an entry id exactly when they are the same day. */
  lemma DateKeyInjective(d1: CalendarDate, d2: CalendarDate)
    ensures DateKey(d1) == DateKey(d2) <==> d1 == d2
  {
    if DateKey(d1) == DateKey(d2) {
      var y1, m1, x1 := Pad(d1.year, 4), Pad(d1.month, 2), Pad(d1.day, 2);
      var y2, m2, x2 := Pad(d2.year, 4), Pad(d2.month, 2), Pad(d2.day, 2);
      assert DateKey(d1) == y1 + "-" + (m1 + "-" + x1);
      assert DateKey(d2) == y2 + "-" + (m2 + "-" + x2);
      DashSplit(y1, m1 + "-" + x1, y2, m2 + "-" + x2);
      DashSplit(m1, x1, m2, x2);
      PadRoundTrip(d1.year, 4);
      PadRoundTrip(d2.year, 4);
      PadRoundTrip(d1.month, 2);
      PadRoundTrip(d2.month, 2);
      PadRoundTrip(d1.day, 2);
      PadRoundTrip(d2.day, 2);
    }
  }

  // ---------------------------------------------------------------------
  // Form rules and calendar bounds
  // ---------------------------------------------------------------------

  const WeightMessage := "O peso deve ser um número positivo."
  const BodyFatMessage := "A gordura corporal deve ser um número positivo."
  const DateMessage := "A data é obrigatória."

  /** `progressFormSchema`: the issues for one submission, in field order. */
  function ProgressIssues(weight: real, bodyFat: Option<real>, date: Option<CalendarDate>): (r: seq<Issue>)
    ensures r == [] <==> weight > 0.0 && (bodyFat.Some? ==> bodyFat.value > 0.0) && date.Some?
    ensures Issue("weight", WeightMessage) in r <==> weight <= 0.0
    ensures Issue("bodyFat", BodyFatMessage) in r <==> bodyFat.Some? && bodyFat.value <= 0.0
    ensures Issue("date", DateMessage) in r <==> date.None?
  {
    (if weight > 0.0 then [] else [Issue("weight", WeightMessage)])
    + (if bodyFat.Some? && bodyFat.value <= 0.0 then [Issue("bodyFat", BodyFatMessage)] else [])
    + (if date.None? then [Issue("date", DateMessage)] else [])
  }

  const CalendarFloor := CalendarDate(1900, 1, 1)

  /** The calendar's `disabled` test: days after today or before
      1900-01-01 cannot be picked. */
  function DateDisabled(d: CalendarDate, today: CalendarDate): (disabled: bool)
    ensures !disabled <==> DateLessEq(CalendarFloor, d) && DateLessEq(d, today)
  {
    !DateLessEq(d, today) || !DateLessEq(CalendarFloor, d)
  }

  // ---------------------------------------------------------------------
  // The stored entry
  // ---------------------------------------------------------------------

  /** A validated submission. */
  datatype ProgressValues = ProgressValues(weight: real, bodyFat: Option<real>, date: CalendarDate)

  /** `data.bodyFat || null`: an absent or zero body fat is stored as null. */
  function StoredBodyFat(bodyFat: Option<real>): (v: Value)
    ensures v == Null <==> bodyFat.None? || bodyFat.value == 0.0
    ensures v != Null ==> v == Number(bodyFat.value)
  {
    if bodyFat.Some? && bodyFat.value != 0.0 then Number(bodyFat.value) else Null
  }

  /** The document `onSubmit` writes: exactly weight, bodyFat, date and
      createdAt. */
  function ProgressDoc(v: ProgressValues, now: int): (doc: Document)
    ensures doc.Keys == {"weight", "bodyFat", "date", "createdAt"}
    ensures doc["weight"] == Number(v.weight) && doc["bodyFat"] == StoredBodyFat(v.bodyFat)
    ensures doc["date"] == Day(v.date) && doc["createdAt"] == Timestamp(now)
  {
    map["weight" := Number(v.weight), "bodyFat" := StoredBodyFat(v.bodyFat),
        "date" := Day(v.date), "createdAt" := Timestamp(now)]
  }

  function ProgressPath(uid: string, date: CalendarDate): Path {
    ["usuarios", uid, "progresso", DateKey(date)]
  }

  predicate IsProgressPath(p: Path) {
    |p| == 4 && p[0] == "usuarios" && p[2] == "progresso"
  }

  /** Every entry is filed under the id of its own date. */
  predicate ProgressKeyed(docs: map<Path, Document>) {
    forall p :: p in docs && IsProgressPath(p) ==>
      "date" in docs[p] && docs[p]["date"].Day? && DateKey(docs[p]["date"].date) == p[3]
  }

  /** Filed by date, a user's collection holds at most one entry per day. */
  lemma AtMostOneEntryPerDate(docs: map<Path, Document>, p1: Path, p2: Path)
    requires ProgressKeyed(docs)
    requires p1 in docs && p2 in docs && IsProgressPath(p1) && IsProgressPath(p2) && p1[1] == p2[1]
    requires docs[p1]["date"] == docs[p2]["date"]
    ensures p1 == p2
  {
    assert p1[3] == p2[3];
  }

  /** Saving an entry keeps the collection filed by date. */
  lemma SavePreservesKeyed(docs: map<Path, Document>, uid: string, v: ProgressValues, now: int)
    requires ProgressKeyed(docs)
    ensures ProgressKeyed(Replaced(docs, ProgressPath(uid, v.date), ProgressDoc(v, now)))
  {
  }

  /** Saving an entry for one day leaves every other day's entry as it
      was; saving the same day again overwrites it. */
  lemma SaveTouchesOnlyItsDay(docs: map<Path, Document>, uid: string, v: ProgressValues, now: int, other: CalendarDate)
    requires other != v.date
    requires ProgressPath(uid, other) in docs
    ensures var r := Replaced(docs, ProgressPath(uid, v.date), ProgressDoc(v, now));
            ProgressPath(uid, other) in r && r[ProgressPath(uid, other)] == docs[ProgressPath(uid, other)]
  {
    DateKeyInjective(other, v.date);
    assert ProgressPath(uid, other)[3] != ProgressPath(uid, v.date)[3];
  }

  // ---------------------------------------------------------------------
  // The card
  // ---------------------------------------------------------------------

  const NotSignedIn := Toast("Erro", "Você precisa estar logado para registrar o progresso.", true)
  const Saved := Toast("Sucesso!", "Seu progresso foi registrado.", false)
  const SaveFailed := Toast("Erro", "Não foi possível salvar seu progresso. Tente novamente.", true)

  class ProgressTracker {
    var isLoading: bool
    var loadingLog: seq<bool>
    var toasts: seq<Toast>

    constructor()
      ensures !isLoading && loadingLog == [] && toasts == []
    {
      isLoading, loadingLog, toasts := false, [], [];
    }

    /** `onSubmit`, run on values the form has validated. `writeError` is
        the backend's verdict on the write. */
    method OnSubmit(db: Store, user: Option<AuthUser>, v: ProgressValues, now: int, writeError: Option<ErrorValue>)
      requires v.weight > 0.0 && (v.bodyFat.Some? ==> v.bodyFat.value > 0.0)
      modifies this, db
      ensures user.None? ==> db.docs == old(db.docs) && isLoading == old(isLoading) && loadingLog == old(loadingLog)
      ensures user.None? ==> toasts == old(toasts) + [NotSignedIn]
      ensures user.Some? ==> loadingLog == old(loadingLog) + [true, false] && !isLoading
      ensures user.Some? && writeError.None? ==>
        db.docs == Replaced(old(db.docs), ProgressPath(user.value.uid, v.date), ProgressDoc(v, now))
        && toasts == old(toasts) + [Saved]
      ensures user.Some? && writeError.Some? ==> db.docs == old(db.docs) && toasts == old(toasts) + [SaveFailed]
      ensures ProgressKeyed(old(db.docs)) ==> ProgressKeyed(db.docs)
    {
      if user.None? {
        toasts := toasts + [NotSignedIn];
        return;
      }
      isLoading := true;
      loadingLog := loadingLog + [true];
      var dateString := DateKey(v.date);
      var path := ["usuarios", user.value.uid, "progresso", dateString];
      if writeError.None? {
        if ProgressKeyed(db.docs) {
          SavePreservesKeyed(db.docs, user.value.uid, v, now);
        }
        db.SetDoc(path, ProgressDoc(v, now));
        toasts := toasts + [Saved];
      } else {
        toasts := toasts + [SaveFailed];
      }
      isLoading := false;
      loadingLog := loadingLog + [false];
    }
  }
}
