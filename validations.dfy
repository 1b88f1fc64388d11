/**
 * The checkout and contact-form validators: Colombian mobile numbers (validation,
 * normalisation to `+57XXXXXXXXXX`, display formatting), the e-mail pattern, the
 * Colombian-domain test, and the field rules of the order and contact schemas.
 */
module Validations {
  import opened Wrappers
  import opened Text
  import Departamentos

  // ===== phones =====

  /** Mobile operator prefixes accepted after `+57`. */
  const OPERADORES_VALIDOS: seq<string> := [
    "300", "301", "302", "303", "304", "305",
    "310", "311", "312", "313", "314", "315", "316", "317", "318", "319", "320", "321",
    "350", "351", "352", "353"
  ]

  /** The pattern `^\+57\d{10}$`, with `\d` the ASCII digits. */
  predicate PhonePattern(t: string) {
    |t| == 13 && StartsWith(t, "+57") && AllDigits(t[3..])
  }

  /**
   * `validarTelefonoColombia`: the pattern, and a listed operator after `+57`. A valid phone
   * is a 13-character mobile number (`+573…`) made only of the characters cleaning keeps.
   */
  function ValidarTelefonoColombia(t: string): (valido: bool)
    ensures valido ==> |t| == 13 && StartsWith(t, "+573") && AllKept(t)
  {
    if PhonePattern(t) && t[3..6] in OPERADORES_VALIDOS then
      ValidPhoneShape(t);
      true
    else
      false
  }

  /** Every listed operator starts with 3, and a number matching the pattern holds only digits and `+`. */
  lemma ValidPhoneShape(t: string)
    requires PhonePattern(t) && t[3..6] in OPERADORES_VALIDOS
    ensures |t| == 13 && StartsWith(t, "+573") && AllKept(t)
  {
    assert t[3] == t[3..6][0];
    assert t[..4] == t[..3] + [t[3]];
    assert t == t[..3] + t[3..];
  }

  /** The characters `replace(/[^\d+]/g, '')` keeps. */
  predicate Kept(c: char) {
    IsAsciiDigit(c) || c == '+'
  }

  predicate AllKept(s: string) {
    forall i :: 0 <= i < |s| ==> Kept(s[i])
  }

  /** `replace(/[^\d+]/g, '')`: the digits and plus signs of `s`, in order. */
  function Clean(s: string): (r: string)
    ensures AllKept(r) && |r| <= |s|
    ensures AllKept(s) ==> r == s
    decreases |s|
  {
    if s == [] then []
    else (if Kept(s[0]) then [s[0]] else []) + Clean(s[1..])
  }

  lemma {:induction false} CleanAppend(a: string, b: string)
    ensures Clean(a + b) == Clean(a) + Clean(b)
    decreases |a|
  {
    if a != [] {
      assert (a + b)[0] == a[0];
      assert (a + b)[1..] == a[1..] + b;
      CleanAppend(a[1..], b);
    } else {
      assert a + b == b;
    }
  }

  /** `normalizarTelefono`: clean, then prefix `+57` to a 10-character number that lacks it. */
  function NormalizarTelefono(t: string): (r: string)
    ensures AllKept(r)
    ensures StartsWith(Clean(t), "+57") || |Clean(t)| != 10 ==> r == Clean(t)
    ensures !StartsWith(Clean(t), "+57") && |Clean(t)| == 10 ==>
              |r| == 13 && r[..3] == "+57" && r[3..] == Clean(t)
  {
    var cleaned := Clean(t);
    if !StartsWith(cleaned, "+57") && |cleaned| == 10 then "+57" + cleaned else cleaned
  }

  /** Normalising twice is normalising once. */
  lemma NormalizarIdempotent(t: string)
    ensures NormalizarTelefono(NormalizarTelefono(t)) == NormalizarTelefono(t)
  {
    var r := NormalizarTelefono(t);
    assert Clean(r) == r;
    if !StartsWith(Clean(t), "+57") && |Clean(t)| == 10 {
      assert StartsWith(r, "+57");
    }
  }

  /** A valid phone is already in normal form. */
  lemma ValidPhoneIsNormal(t: string)
    requires ValidarTelefonoColombia(t)
    ensures NormalizarTelefono(t) == t
  {
    assert t[..3] == "+57";
  }

  /** `+57 XXX XXX XXXX` from the ten national digits. */
  function Grouped(d: string): (r: string)
    requires |d| == 10
    ensures |r| == 16 && StartsWith(r, "+57 ")
  {
    "+57 " + d[..3] + " " + d[3..6] + " " + d[6..]
  }

  /**
   * `formatearTelefono`: a number whose normal form is `+57` and ten more characters is
   * shown as that form grouped `+57 XXX XXX XXXX`, and cleaning the display gives the normal
   * form back; any other input is shown unchanged.
   */
  function FormatearTelefono(t: string): (r: string)
    ensures var n := NormalizarTelefono(t);
      r == (if |n| == 13 && StartsWith(n, "+57") then Grouped(n[3..]) else t)
    ensures r == t || (|r| == 16 && StartsWith(r, "+57 ") && Clean(r) == NormalizarTelefono(t))
  {
    var cleaned := Clean(t);
    if !StartsWith(cleaned, "+57") && |cleaned| == 10 then
      CleanGrouped(cleaned);
      Grouped(cleaned)
    else if StartsWith(cleaned, "+57") && |cleaned| == 13 then
      var numero := cleaned[3..];
      CleanGrouped(numero);
      assert "+57" + numero == cleaned;
      Grouped(numero)
    else
      t
  }

  lemma CleanAroundSpace(x: string, y: string)
    ensures Clean(x + " " + y) == Clean(x) + Clean(y)
  {
    calc {
      Clean(x + " " + y);
    == { CleanAppend(x + " ", y); }
      Clean(x + " ") + Clean(y);
    == { CleanAppend(x, " "); assert Clean(" ") == []; assert Clean(x) + [] == Clean(x); }
      Clean(x) + Clean(y);
    }
  }

  /** Cleaning the grouped form drops exactly the three spaces. */
  lemma CleanGrouped(d: string)
    requires |d| == 10 && AllKept(d)
    ensures Clean(Grouped(d)) == "+57" + d
  {
    var a, b, c := d[..3], d[3..6], d[6..];
    calc {
      Clean(Grouped(d));
    == { CleanAroundSpace("+57 " + a + " " + b, c); }
      Clean("+57 " + a + " " + b) + Clean(c);
    == { CleanAroundSpace("+57 " + a, b); }
      Clean("+57 " + a) + Clean(b) + Clean(c);
    == { assert "+57 " + a == "+57" + " " + a; CleanAroundSpace("+57", a); }
      Clean("+57") + Clean(a) + Clean(b) + Clean(c);
    == { assert AllKept("+57") && AllKept(a) && AllKept(b) && AllKept(c); }
      "+57" + a + b + c;
    == { assert a + b + c == d; }
      "+57" + d;
    }
  }

  /** Formatting never changes what a number normalises to. */
  lemma NormalizeFormatted(t: string)
    ensures NormalizarTelefono(FormatearTelefono(t)) == NormalizarTelefono(t)
  {
    var c := Clean(t);
    if !StartsWith(c, "+57") && |c| == 10 {
      CleanGrouped(c);
      assert StartsWith("+57" + c, "+57");
    } else if StartsWith(c, "+57") && |c| == 13 {
      CleanGrouped(c[3..]);
      assert "+57" + c[3..] == c;
    }
  }

  /** Formatting a formatted number changes nothing. */
  lemma FormatIdempotent(t: string)
    ensures FormatearTelefono(FormatearTelefono(t)) == FormatearTelefono(t)
  {
    var c := Clean(t);
    if !StartsWith(c, "+57") && |c| == 10 {
      CleanGrouped(c);
      assert StartsWith("+57" + c, "+57") && ("+57" + c)[3..] == c;
    } else if StartsWith(c, "+57") && |c| == 13 {
      CleanGrouped(c[3..]);
      assert "+57" + c[3..] == c;
    }
  }

  /** A valid phone is shown grouped, and normalising the display gives the phone back. */
  lemma FormatValidPhone(t: string)
    requires ValidarTelefonoColombia(t)
    ensures FormatearTelefono(t) == Grouped(t[3..])
    ensures NormalizarTelefono(FormatearTelefono(t)) == t
  {
    ValidPhoneIsNormal(t);
    NormalizeFormatted(t);
  }

  /** A well-formed number with a listed operator is valid. */
  lemma ValidPhoneFromParts(t: string, k: nat)
    requires |t| == 13 && t[..3] == "+57" && AllDigits(t[3..])
    requires k < |OPERADORES_VALIDOS| && t[3..6] == OPERADORES_VALIDOS[k]
    ensures ValidarTelefonoColombia(t)
  {
  }

  lemma ValidPhoneExample300()
    ensures ValidarTelefonoColombia("+573001234567")
  {
    var t := "+573001234567";
    assert t[..3] == "+57" && t[3..] == "3001234567" && t[3..6] == "300";
    ValidPhoneFromParts(t, 0);
  }

  lemma ValidPhoneExample310()
    ensures ValidarTelefonoColombia("+573101234567")
  {
    var t := "+573101234567";
    assert t[..3] == "+57" && t[3..] == "3101234567" && t[3..6] == "310";
    ValidPhoneFromParts(t, 6);
  }

  lemma ValidPhoneExample350()
    ensures ValidarTelefonoColombia("+573501234567")
  {
    var t := "+573501234567";
    assert t[..3] == "+57" && t[3..] == "3501234567" && t[3..6] == "350";
    ValidPhoneFromParts(t, 18);
  }

  lemma MalformedPhoneExamples()
    ensures !ValidarTelefonoColombia("3001234567")
    ensures !ValidarTelefonoColombia("+57300123456")
    ensures !ValidarTelefonoColombia("+5730012345678")
  {
  }

  /** A number whose operator is not listed is rejected. */
  lemma UnlistedOperatorRejected(t: string)
    requires |t| >= 6 && t[3..6] !in OPERADORES_VALIDOS
    ensures !ValidarTelefonoColombia(t)
  {
  }

  lemma UnknownOperatorExamples()
    ensures !ValidarTelefonoColombia("+573991234567")
    ensures !ValidarTelefonoColombia("+572001234567")
  {
    assert "+573991234567"[3..6] == "399";
    UnlistedOperatorRejected("+573991234567");
    assert "+572001234567"[3..6] == "200";
    UnlistedOperatorRejected("+572001234567");
  }

  /** A ten-digit national number is normalised by prefixing `+57` and shown grouped. */
  lemma NationalNumber(d: string)
    requires |d| == 10 && AllDigits(d)
    ensures NormalizarTelefono(d) == "+57" + d
    ensures FormatearTelefono(d) == Grouped(d)
  {
    assert AllKept(d);
    assert d[0] != '+';
  }

  lemma GroupedExample()
    ensures Grouped("3001234567") == "+57 300 123 4567"
  {
    var d := "3001234567";
    assert d[..3] == "300" && d[3..6] == "123" && d[6..] == "4567";
  }

  lemma FormatNationalExample()
    ensures FormatearTelefono("3001234567") == "+57 300 123 4567"
  {
    NationalNumber("3001234567");
    GroupedExample();
  }

  lemma FormatInternationalExample()
    ensures FormatearTelefono("+573001234567") == "+57 300 123 4567"
  {
    ValidPhoneExample300();
    FormatValidPhone("+573001234567");
    assert "+573001234567"[3..] == "3001234567";
    GroupedExample();
  }

  lemma AllDigitsAppend(a: string, b: string)
    requires AllDigits(a) && AllDigits(b)
    ensures AllDigits(a + b)
  {
    forall i | 0 <= i < |a + b| ensures IsAsciiDigit((a + b)[i]) {
      if i < |a| { assert (a + b)[i] == a[i]; } else { assert (a + b)[i] == b[i - |a|]; }
    }
  }

  /** A national number typed in three space-separated groups normalises to the compact form. */
  lemma NormalizeSpaced(a: string, b: string, c: string)
    requires AllDigits(a) && AllDigits(b) && AllDigits(c) && |a + b + c| == 10
    ensures NormalizarTelefono(a + " " + b + " " + c) == "+57" + a + b + c
  {
    var d := a + b + c;
    AllDigitsAppend(a, b);
    AllDigitsAppend(a + b, c);
    assert AllKept(a) && AllKept(b) && AllKept(c);
    calc {
      Clean(a + " " + b + " " + c);
    == { CleanAroundSpace(a + " " + b, c); }
      Clean(a + " " + b) + Clean(c);
    == { CleanAroundSpace(a, b); }
      Clean(a) + Clean(b) + Clean(c);
    ==
      d;
    }
    assert d[0] != '+';
    assert !StartsWith(d, "+57");
    assert "+57" + d == "+57" + a + b + c;
  }

  /** The display form of a national number normalises back to the compact form. */
  lemma NormalizeDisplayed(d: string)
    requires |d| == 10 && AllDigits(d)
    ensures NormalizarTelefono(Grouped(d)) == "+57" + d
  {
    assert AllKept(d);
    CleanGrouped(d);
    assert StartsWith("+57" + d, "+57");
  }

  lemma NormalizeSpacedExample()
    ensures NormalizarTelefono("300" + " " + "123" + " " + "4567") == "+57" + "300" + "123" + "4567"
  {
    NormalizeSpaced("300", "123", "4567");
  }

  lemma NormalizeDisplayedExample()
    ensures Grouped("3001234567") == "+57 300 123 4567"
    ensures NormalizarTelefono(Grouped("3001234567")) == "+57" + "3001234567"
  {
    GroupedExample();
    NormalizeDisplayed("3001234567");
  }

  // ===== e-mail =====

  predicate AsciiAlnum(c: char) {
    'a' <= c <= 'z' || 'A' <= c <= 'Z' || IsAsciiDigit(c)
  }

  /** The local-part class ``[a-zA-Z0-9.!#$%&'*+/=?^_`{|}~-]``. */
  predicate LocalChar(c: char) {
    AsciiAlnum(c) || c in ".!#$%&'*+/=?^_`{|}~-"
  }

  predicate AllLocal(s: string) {
    forall i :: 0 <= i < |s| ==> LocalChar(s[i])
  }

  predicate LabelChar(c: char) {
    AsciiAlnum(c) || c == '-'
  }

  /** One domain label, `[a-zA-Z0-9](?:[a-zA-Z0-9-]{0,61}[a-zA-Z0-9])?`: 1 to 63 characters, no hyphen at either end. */
  predicate IsLabel(l: string) {
    1 <= |l| <= 63 && AsciiAlnum(l[0]) && AsciiAlnum(l[|l| - 1])
    && forall i :: 0 <= i < |l| ==> LabelChar(l[i])
  }

  /** The first position of `c` in `s`, if any. */
  function IndexOf(s: string, c: char): (r: Option<nat>)
    ensures r.Some? ==> r.value < |s| && s[r.value] == c && forall j :: 0 <= j < r.value ==> s[j] != c
    ensures r.None? ==> forall j :: 0 <= j < |s| ==> s[j] != c
    decreases |s|
  {
    if s == [] then None
    else if s[0] == c then Some(0)
    else match IndexOf(s[1..], c)
      case None => None
      case Some(k) => Some(k + 1)
  }

  /** The labels of a domain: the pieces between its dots. */
  function SplitDots(d: string): (ls: seq<string>)
    ensures |ls| >= 1
    ensures forall k :: 0 <= k < |ls| ==> '.' !in ls[k]
    decreases |d|
  {
    match IndexOf(d, '.')
    case None => [d]
    case Some(i) => [d[..i]] + SplitDots(d[i + 1..])
  }

  function JoinDots(ls: seq<string>): (d: string)
    requires |ls| >= 1
    decreases |ls|
  {
    if |ls| == 1 then ls[0] else ls[0] + "." + JoinDots(ls[1..])
  }

  lemma {:induction false} JoinSplit(d: string)
    ensures JoinDots(SplitDots(d)) == d
    decreases |d|
  {
    match IndexOf(d, '.')
    case None =>
      assert SplitDots(d) == [d];
    case Some(i) =>
      var rest := SplitDots(d[i + 1..]);
      assert SplitDots(d) == [d[..i]] + rest;
      JoinSplit(d[i + 1..]);
      calc {
        JoinDots(SplitDots(d));
        d[..i] + "." + JoinDots(rest);
        d[..i] + "." + d[i + 1..];
        { assert d[i] == '.'; }
        d;
      }
  }

  lemma {:induction false} SplitJoin(ls: seq<string>)
    requires |ls| >= 1 && forall k :: 0 <= k < |ls| ==> '.' !in ls[k]
    ensures SplitDots(JoinDots(ls)) == ls
    decreases |ls|
  {
    if |ls| > 1 {
      var d := JoinDots(ls);
      assert d == ls[0] + "." + JoinDots(ls[1..]);
      assert d[|ls[0]|] == '.';
      assert forall j :: 0 <= j < |ls[0]| ==> d[j] == ls[0][j];
      assert IndexOf(d, '.') == Some(|ls[0]|);
      assert d[..|ls[0]|] == ls[0];
      assert d[|ls[0]| + 1..] == JoinDots(ls[1..]);
      SplitJoin(ls[1..]);
    } else {
      assert '.' !in ls[0];
      assert forall j :: 0 <= j < |ls[0]| ==> ls[0][j] != '.';
    }
  }

  /** Every dot-separated piece of the domain is a label. */
  predicate DomainOk(d: string) {
    var ls := SplitDots(d);
    forall k :: 0 <= k < |ls| ==> IsLabel(ls[k])
  }

  /** `validarEmail`: a non-empty local part, one `@`, and a domain of labels. */
  function ValidarEmail(e: string): (b: bool)
    ensures b ==> exists i :: 0 < i < |e| && e[i] == '@' && AllLocal(e[..i]) && DomainOk(e[i + 1..])
  {
    match IndexOf(e, '@')
    case None => false
    case Some(i) => i >= 1 && AllLocal(e[..i]) && DomainOk(e[i + 1..])
  }

  /** The pattern reading: some `@` splits the address into a local part and a domain. */
  lemma EmailIffSplit(e: string)
    ensures ValidarEmail(e) <==> exists i :: 0 < i < |e| && e[i] == '@' && AllLocal(e[..i]) && DomainOk(e[i + 1..])
  {
    if i :| 0 < i < |e| && e[i] == '@' && AllLocal(e[..i]) && DomainOk(e[i + 1..]) {
      assert forall j :: 0 <= j < i ==> e[..i][j] == e[j];
      assert IndexOf(e, '@') == Some(i);
    }
  }

  lemma {:induction false} DomainChars(d: string)
    requires DomainOk(d)
    ensures forall j :: 0 <= j < |d| ==> d[j] == '.' || LabelChar(d[j])
    decreases |d|
  {
    match IndexOf(d, '.')
    case None =>
      assert SplitDots(d)[0] == d;
    case Some(i) =>
      var rest := d[i + 1..];
      assert SplitDots(d) == [d[..i]] + SplitDots(rest);
      assert SplitDots(d)[0] == d[..i];
      assert DomainOk(rest) by {
        forall k | 0 <= k < |SplitDots(rest)| ensures IsLabel(SplitDots(rest)[k]) {
          assert SplitDots(rest)[k] == SplitDots(d)[k + 1];
        }
      }
      DomainChars(rest);
      forall j | 0 <= j < |d| ensures d[j] == '.' || LabelChar(d[j]) {
        if j < i {
          assert d[j] == d[..i][j];
        } else if j > i {
          assert d[j] == rest[j - i - 1];
        }
      }
  }

  /** A valid address has exactly one `@`. */
  lemma ExactlyOneAt(e: string, i: nat, j: nat)
    requires ValidarEmail(e)
    requires i < |e| && j < |e| && e[i] == '@' && e[j] == '@'
    ensures i == j
  {
    var k := IndexOf(e, '@').value;
    DomainChars(e[k + 1..]);
  }

  /** Labels joined by dots form a valid domain. */
  lemma DomainFromLabels(labels: seq<string>)
    requires |labels| >= 1 && forall k :: 0 <= k < |labels| ==> IsLabel(labels[k])
    ensures DomainOk(JoinDots(labels))
  {
    forall k | 0 <= k < |labels| ensures '.' !in labels[k] {
      assert forall j :: 0 <= j < |labels[k]| ==> labels[k][j] != '.';
    }
    SplitJoin(labels);
  }

  /** Any non-empty local part and list of labels make a valid address. */
  lemma EmailFromParts(local: string, labels: seq<string>)
    requires |local| >= 1 && AllLocal(local)
    requires |labels| >= 1 && forall k :: 0 <= k < |labels| ==> IsLabel(labels[k])
    ensures ValidarEmail(local + "@" + JoinDots(labels))
  {
    var e := local + "@" + JoinDots(labels);
    DomainFromLabels(labels);
    assert e[..|local|] == local;
    assert e[|local|] == '@';
    assert e[|local| + 1..] == JoinDots(labels);
    EmailIffSplit(e);
  }

  /** Every valid address is a local part, `@`, and labels joined by dots. */
  lemma EmailIntoParts(e: string)
    requires ValidarEmail(e)
    ensures exists i :: 0 < i < |e| && AllLocal(e[..i]) && e == e[..i] + "@" + JoinDots(SplitDots(e[i + 1..]))
  {
    var i := IndexOf(e, '@').value;
    assert 0 < i < |e| && AllLocal(e[..i]);
    SplitAtSign(e, i);
  }

  /** Cutting an address at its `@` and re-joining the labels of the domain gives it back. */
  lemma SplitAtSign(e: string, i: nat)
    requires i < |e| && e[i] == '@'
    ensures e == e[..i] + "@" + JoinDots(SplitDots(e[i + 1..]))
  {
    JoinSplit(e[i + 1..]);
    assert e == e[..i] + [e[i]] + e[i + 1..];
  }

  /** `test@example.com` and `user.name@domain.co`, written as their parts. */
  lemma ValidEmailExamples()
    ensures JoinDots(["example", "com"]) == "example.com"
    ensures ValidarEmail("test" + "@" + JoinDots(["example", "com"]))
    ensures JoinDots(["domain", "co"]) == "domain.co"
    ensures ValidarEmail("user.name" + "@" + JoinDots(["domain", "co"]))
  {
    EmailFromParts("test", ["example", "com"]);
    EmailFromParts("user.name", ["domain", "co"]);
  }

  lemma InvalidEmailExamples()
    ensures !ValidarEmail("invalid-email")
    ensures !ValidarEmail("@example.com")
    ensures !ValidarEmail("test@")
  {
    assert forall j :: 0 <= j < |"invalid-email"| ==> "invalid-email"[j] != '@';
    assert "test@"[4] == '@' && "test@"[5..] == "";
    assert SplitDots("")[0] == "";
  }

  // ===== Colombian e-mail domains =====

  const DOMINIOS_COLOMBIANOS: seq<string> := [".co", ".com.co", ".net.co", ".org.co", ".gov.co", ".edu.co"]

  /** Every listed suffix ends in `.co`, and `.co` is listed, so ending in one of them is ending in `.co`. */
  lemma ListedSuffixesEndInCo(s: string)
    ensures (exists k :: 0 <= k < |DOMINIOS_COLOMBIANOS| && EndsWith(s, DOMINIOS_COLOMBIANOS[k]))
            <==> EndsWith(s, ".co")
  {
    if k :| 0 <= k < |DOMINIOS_COLOMBIANOS| && EndsWith(s, DOMINIOS_COLOMBIANOS[k]) {
      assert EndsWith(DOMINIOS_COLOMBIANOS[k], ".co");
      EndsWithTransitive(s, DOMINIOS_COLOMBIANOS[k], ".co");
    }
    if EndsWith(s, ".co") {
      assert DOMINIOS_COLOMBIANOS[0] == ".co";
    }
  }

  /** `esEmailColombiano`: the lowered address ends with one of the listed suffixes, that is, with `.co`. */
  function EsEmailColombiano(e: string): (colombiano: bool)
    ensures colombiano <==> EndsWith(Lower(e), ".co")
  {
    ListedSuffixesEndInCo(Lower(e));
    exists k :: 0 <= k < |DOMINIOS_COLOMBIANOS| && EndsWith(Lower(e), DOMINIOS_COLOMBIANOS[k])
  }

  // ===== form schemas =====

  /** The field names under which the schemas report errors. */
  datatype Campo =
    | CorreoElectronico | Telefono | Departamento | Ciudad | DireccionCompleta | NotasAdicionales
    | NombreCompleto | Asunto | Mensaje

  /** The order form (`schemaPedido`); only the notes are optional. */
  datatype Pedido = Pedido(
    correo_electronico: string,
    telefono: string,
    departamento: string,
    ciudad: string,
    direccion_completa: string,
    notas_adicionales: Option<string>)

  /** Zod's `.min(lo).max(hi)` on a string: its UTF-16 length lies in `[lo, hi]`. */
  predicate LengthWithin(s: string, lo: nat, hi: nat) {
    lo <= Utf16Length(s) <= hi
  }

  // the field rules of `schemaPedido`

  /** `correo_electronico`: `min(1)`, `.email()`, `max(255)`. */
  predicate CorreoOk(correo: string, esEmail: string -> bool) {
    LengthWithin(correo, 1, 255) && esEmail(correo)
  }

  /** `telefono`: `min(1)` and `validarTelefonoColombia`. */
  predicate TelefonoPedidoOk(telefono: string) {
    Utf16Length(telefono) >= 1 && ValidarTelefonoColombia(telefono)
  }

  /** `departamento`: `min(1)` and `esDepartamentoValido`. */
  predicate DepartamentoOk(departamento: string) {
    Utf16Length(departamento) >= 1 && Departamentos.EsDepartamentoValido(departamento)
  }

  /** `ciudad`: `min(1)`, `max(100)`, and the object-level rule reported under `ciudad`. */
  predicate CiudadOk(ciudad: string, departamento: string) {
    LengthWithin(ciudad, 1, 100) && Departamentos.EsCiudadValidaEnDepartamento(ciudad, departamento)
  }

  /** `notas_adicionales`: optional, `max(1000)`. */
  predicate NotasOk(notas: Option<string>) {
    notas.None? || Utf16Length(notas.value) <= 1000
  }

  /** The fields of `schemaPedido`. */
  const CAMPOS_PEDIDO: set<Campo> :=
    {CorreoElectronico, Telefono, Departamento, Ciudad, DireccionCompleta, NotasAdicionales}

  /** Whether the rules of one field of `schemaPedido` hold. */
  predicate ReglaPedido(p: Pedido, esEmail: string -> bool, campo: Campo) {
    match campo
    case CorreoElectronico => CorreoOk(p.correo_electronico, esEmail)
    case Telefono => TelefonoPedidoOk(p.telefono)
    case Departamento => DepartamentoOk(p.departamento)
    case Ciudad => CiudadOk(p.ciudad, p.departamento)
    case DireccionCompleta => LengthWithin(p.direccion_completa, 10, 500)
    case NotasAdicionales => NotasOk(p.notas_adicionales)
    case _ => true
  }

  /**
   * The fields `schemaPedido` reports. `esEmail` stands for Zod's own `.email()` check.
   * The cross-field rule (the city belongs to the department) is reported under `ciudad`.
   */
  function ErroresPedido(p: Pedido, esEmail: string -> bool): (errores: set<Campo>)
    // only fields of the order form are ever reported
    ensures NombreCompleto !in errores && Asunto !in errores && Mensaje !in errores
  {
    set campo | campo in CAMPOS_PEDIDO && !ReglaPedido(p, esEmail, campo)
  }

  /** An acceptable order, rule by rule. */
  predicate PedidoValido(p: Pedido, esEmail: string -> bool) {
    && 1 <= Utf16Length(p.correo_electronico) <= 255 && esEmail(p.correo_electronico)
    && ValidarTelefonoColombia(p.telefono)
    && Departamentos.EsDepartamentoValido(p.departamento)
    && 1 <= Utf16Length(p.ciudad) <= 100 && Departamentos.EsCiudadValidaEnDepartamento(p.ciudad, p.departamento)
    && 10 <= Utf16Length(p.direccion_completa) <= 500
    && (p.notas_adicionales.None? || Utf16Length(p.notas_adicionales.value) <= 1000)
  }

  /** No table entry has an empty name, so the empty department is never valid. */
  lemma EmptyDepartmentInvalid()
    ensures !Departamentos.EsDepartamentoValido("")
  {
    Departamentos.UnknownDepartment("");
  }

  /**
   * The schema accepts exactly the valid orders; the `min(1)` rules on phone and
   * department are implied by the phone pattern and by the table.
   */
  lemma PedidoAccepted(p: Pedido, esEmail: string -> bool)
    ensures ErroresPedido(p, esEmail) == {} <==> PedidoValido(p, esEmail)
  {
    PedidoErrorsByField(p, esEmail);
    if ErroresPedido(p, esEmail) != {} {
      var campo :| campo in ErroresPedido(p, esEmail);
      assert campo in CAMPOS_PEDIDO;
    }
  }

  /** An accepted order names a real department and one of its cities. */
  lemma AcceptedOrderLocation(p: Pedido, esEmail: string -> bool)
    requires ErroresPedido(p, esEmail) == {}
    ensures Departamentos.EsDepartamentoValido(p.departamento)
    ensures Departamentos.GetCiudadesPorDepartamento(p.departamento) != []
    ensures exists k :: 0 <= k < |Departamentos.GetCiudadesPorDepartamento(p.departamento)|
              && Departamentos.SameText(Departamentos.GetCiudadesPorDepartamento(p.departamento)[k], p.ciudad)
  {
    assert Ciudad !in ErroresPedido(p, esEmail);
  }

  /**
   * Field by field, when `schemaPedido` reports an error: the `min(1)` rules on phone and
   * department add nothing (a valid phone has 13 characters, and no department has an empty
   * name), and `ciudad` carries both its length rule and the city-in-department rule.
   */
  lemma PedidoErrorsByField(p: Pedido, esEmail: string -> bool)
    ensures CorreoElectronico in ErroresPedido(p, esEmail) <==>
              !(1 <= Utf16Length(p.correo_electronico) <= 255) || !esEmail(p.correo_electronico)
    ensures Telefono in ErroresPedido(p, esEmail) <==> !ValidarTelefonoColombia(p.telefono)
    ensures Departamento in ErroresPedido(p, esEmail) <==> !Departamentos.EsDepartamentoValido(p.departamento)
    ensures Ciudad in ErroresPedido(p, esEmail) <==>
              !(1 <= Utf16Length(p.ciudad) <= 100) || !Departamentos.EsCiudadValidaEnDepartamento(p.ciudad, p.departamento)
    ensures DireccionCompleta in ErroresPedido(p, esEmail) <==> !(10 <= Utf16Length(p.direccion_completa) <= 500)
    ensures NotasAdicionales in ErroresPedido(p, esEmail) <==>
              p.notas_adicionales.Some? && Utf16Length(p.notas_adicionales.value) > 1000
  {
    EmptyDepartmentInvalid();
  }

  /** The contact form (`schemaContacto`); the phone is optional. */
  datatype Contacto = Contacto(
    nombre_completo: string,
    correo_electronico: string,
    telefono: Option<string>,
    asunto: string,
    mensaje: string)

  /** JavaScript's `\s`: the Unicode white space and line terminators. */
  predicate JsWhitespace(c: char) {
    c in "\t\n\U{B}\U{C}\r \U{A0}\U{1680}\U{2028}\U{2029}\U{202F}\U{205F}\U{3000}\U{FEFF}"
    || '\U{2000}' <= c <= '\U{200A}'
  }

  /** The name class `[a-zA-ZáéíóúÁÉÍÓÚñÑ\s]`. */
  predicate NameChar(c: char) {
    'a' <= c <= 'z' || 'A' <= c <= 'Z' || c in "áéíóúÁÉÍÓÚñÑ" || JsWhitespace(c)
  }

  predicate AllNameChars(s: string) {
    forall i :: 0 <= i < |s| ==> NameChar(s[i])
  }

  /** `!tel || tel.length === 0 || validarTelefonoColombia(tel)`, with an absent phone allowed too. */
  predicate TelefonoContactoOk(telefono: Option<string>) {
    match telefono
    case None => true
    case Some(t) => Utf16Length(t) == 0 || ValidarTelefonoColombia(t)
  }

  /** `nombre_completo`: `min(3)`, `max(100)`, and only letters, accented vowels, `ñ` and white space. */
  predicate NombreOk(nombre: string) {
    LengthWithin(nombre, 3, 100) && AllNameChars(nombre)
  }

  /** The fields of `schemaContacto`. */
  const CAMPOS_CONTACTO: set<Campo> := {NombreCompleto, CorreoElectronico, Telefono, Asunto, Mensaje}

  /** Whether the rules of one field of `schemaContacto` hold. */
  predicate ReglaContacto(c: Contacto, esEmail: string -> bool, campo: Campo) {
    match campo
    case NombreCompleto => NombreOk(c.nombre_completo)
    case CorreoElectronico => CorreoOk(c.correo_electronico, esEmail)
    case Telefono => TelefonoContactoOk(c.telefono)
    case Asunto => LengthWithin(c.asunto, 3, 200)
    case Mensaje => LengthWithin(c.mensaje, 10, 2000)
    case _ => true
  }

  /** The fields `schemaContacto` reports. */
  function ErroresContacto(c: Contacto, esEmail: string -> bool): (errores: set<Campo>)
    // only fields of the contact form are ever reported
    ensures Departamento !in errores && Ciudad !in errores
    ensures DireccionCompleta !in errores && NotasAdicionales !in errores
  {
    set campo | campo in CAMPOS_CONTACTO && !ReglaContacto(c, esEmail, campo)
  }

  /** An acceptable contact message, rule by rule. */
  predicate ContactoValido(c: Contacto, esEmail: string -> bool) {
    && 3 <= Utf16Length(c.nombre_completo) <= 100 && AllNameChars(c.nombre_completo)
    && 1 <= Utf16Length(c.correo_electronico) <= 255 && esEmail(c.correo_electronico)
    && TelefonoContactoOk(c.telefono)
    && 3 <= Utf16Length(c.asunto) <= 200
    && 10 <= Utf16Length(c.mensaje) <= 2000
  }

  /** Field by field, when `schemaContacto` reports an error; an empty phone counts as absent. */
  lemma ContactoErrorsByField(c: Contacto, esEmail: string -> bool)
    ensures NombreCompleto in ErroresContacto(c, esEmail) <==>
              !(3 <= Utf16Length(c.nombre_completo) <= 100) || !AllNameChars(c.nombre_completo)
    ensures CorreoElectronico in ErroresContacto(c, esEmail) <==>
              !(1 <= Utf16Length(c.correo_electronico) <= 255) || !esEmail(c.correo_electronico)
    ensures Telefono in ErroresContacto(c, esEmail) <==>
              c.telefono.Some? && c.telefono.value != "" && !ValidarTelefonoColombia(c.telefono.value)
    ensures Asunto in ErroresContacto(c, esEmail) <==> !(3 <= Utf16Length(c.asunto) <= 200)
    ensures Mensaje in ErroresContacto(c, esEmail) <==> !(10 <= Utf16Length(c.mensaje) <= 2000)
  {
  }

  lemma ContactoAccepted(c: Contacto, esEmail: string -> bool)
    ensures ErroresContacto(c, esEmail) == {} <==> ContactoValido(c, esEmail)
  {
    if ErroresContacto(c, esEmail) == {} {
      assert NombreCompleto !in ErroresContacto(c, esEmail);
      assert CorreoElectronico !in ErroresContacto(c, esEmail);
      assert Telefono !in ErroresContacto(c, esEmail);
      assert Asunto !in ErroresContacto(c, esEmail);
      assert Mensaje !in ErroresContacto(c, esEmail);
    }
  }

  /**
   * The accepted order of the test suite, with its phone `+573001234567` stood for by any
   * valid phone (`ValidPhoneExample300` shows that one is).
   */
  lemma ValidPedidoExample(p: Pedido, esEmail: string -> bool)
    requires p.correo_electronico == "test@example.com" && ValidarTelefonoColombia(p.telefono)
    requires p.departamento == "Antioquia" && p.ciudad == "Medellín"
    requires p.direccion_completa == "Calle 50 #45-30, Apartamento 501" && p.notas_adicionales == None
    requires esEmail("test@example.com")
    ensures ErroresPedido(p, esEmail) == {}
  {
    Departamentos.MedellinInAntioquia();
    forall campo ensures ReglaPedido(p, esEmail, campo) {}
    assert forall campo :: campo !in ErroresPedido(p, esEmail);
  }

  lemma InvalidPedidoExample(esEmail: string -> bool)
    requires !esEmail("invalid-email")
    ensures ErroresPedido(Pedido("invalid-email", "123", "", "", "corta", None), esEmail)
            == {CorreoElectronico, Telefono, Departamento, Ciudad, DireccionCompleta}
  {
  }

  lemma ValidContactoExample(esEmail: string -> bool)
    requires esEmail("juan@example.com")
    ensures ErroresContacto(Contacto("Juan Pérez", "juan@example.com", None, "Consulta sobre productos",
                                     "Me gustaría saber más sobre sus productos del campo."), esEmail) == {}
  {
    assert AllNameChars("Juan Pérez");
  }

  lemma InvalidContactoExample(esEmail: string -> bool)
    requires !esEmail("invalid")
    ensures ErroresContacto(Contacto("AB", "invalid", None, "ok", "corto"), esEmail)
            == {NombreCompleto, CorreoElectronico, Asunto, Mensaje}
  {
  }
}
