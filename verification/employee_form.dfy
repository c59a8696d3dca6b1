/** The employee form (src/components/funcionarios/funcionario-dialog.tsx):
    the form record and its one-field updates, the CPF and CEP masks
    applied as the user types, and the validation that runs before the
    form is sent, which reports the first failing check. `parseFloat` is
    the parser `parseNumber`. */
module EmployeeForm {
  import opened Common

  /** The form's fields, all text as the inputs hold them. */
  datatype FormData = FormData(
    nome: string, cpf: string, cnpj: string, emailPessoal: string,
    telefone: string, emailCorporativo: string, telefoneCorporativo: string, teams: string,
    cargo: string, departamento: string, salario: string, chavePix: string,
    rua: string, numero: string, complemento: string, bairro: string,
    cidade: string, estado: string, cep: string, dataAdmissao: string, status: string)

  /** The names `handleInputChange` is called with. */
  datatype Field =
    | Nome | Cpf | Cnpj | EmailPessoal
    | Telefone | EmailCorporativo | TelefoneCorporativo | Teams
    | Cargo | Departamento | Salario | ChavePix
    | Rua | Numero | Complemento | Bairro
    | Cidade | Estado | Cep | DataAdmissao | Status

  /** `formData[field]` */
  function Get(f: FormData, field: Field): string {
    match field
    case Nome => f.nome
    case Cpf => f.cpf
    case Cnpj => f.cnpj
    case EmailPessoal => f.emailPessoal
    case Telefone => f.telefone
    case EmailCorporativo => f.emailCorporativo
    case TelefoneCorporativo => f.telefoneCorporativo
    case Teams => f.teams
    case Cargo => f.cargo
    case Departamento => f.departamento
    case Salario => f.salario
    case ChavePix => f.chavePix
    case Rua => f.rua
    case Numero => f.numero
    case Complemento => f.complemento
    case Bairro => f.bairro
    case Cidade => f.cidade
    case Estado => f.estado
    case Cep => f.cep
    case DataAdmissao => f.dataAdmissao
    case Status => f.status
  }

  /** `{ ...formData, [field]: value }` */
  function Set(f: FormData, field: Field, value: string): (g: FormData)
    ensures Get(g, field) == value
    ensures forall other :: other != field ==> Get(g, other) == Get(f, other)
  {
    match field
    case Nome => f.(nome := value)
    case Cpf => f.(cpf := value)
    case Cnpj => f.(cnpj := value)
    case EmailPessoal => f.(emailPessoal := value)
    case Telefone => f.(telefone := value)
    case EmailCorporativo => f.(emailCorporativo := value)
    case TelefoneCorporativo => f.(telefoneCorporativo := value)
    case Teams => f.(teams := value)
    case Cargo => f.(cargo := value)
    case Departamento => f.(departamento := value)
    case Salario => f.(salario := value)
    case ChavePix => f.(chavePix := value)
    case Rua => f.(rua := value)
    case Numero => f.(numero := value)
    case Complemento => f.(complemento := value)
    case Bairro => f.(bairro := value)
    case Cidade => f.(cidade := value)
    case Estado => f.(estado := value)
    case Cep => f.(cep := value)
    case DataAdmissao => f.(dataAdmissao := value)
    case Status => f.(status := value)
  }

  /** The empty form of a new employee. */
  const EmptyForm := FormData("", "", "", "", "", "", "", "", "", "", "", "", "", "", "", "", "", "", "", "", "ATIVO")

  // ---------------------------------------------------------------------
  // Masks
  // ---------------------------------------------------------------------

  /** `formatCPF`: the digits, with the first eleven written
      `ddd.ddd.ddd-dd` and any further ones after them. */
  function FormatCpf(value: string): (r: string)
    ensures var d := DigitsOf(value);
            && (|d| >= 11 ==> r == d[..3] + "." + d[3..6] + "." + d[6..9] + "-" + d[9..11] + d[11..])
            && (|d| < 11 ==> r == d)
  {
    var d := DigitsOf(value);
    if |d| >= 11 then d[..3] + "." + d[3..6] + "." + d[6..9] + "-" + d[9..11] + d[11..] else d
  }

  /** `formatCEP`: the digits, with the first eight written `ddddd-ddd`
      and any further ones after them. */
  function FormatCep(value: string): (r: string)
    ensures var d := DigitsOf(value);
            && (|d| >= 8 ==> r == d[..5] + "-" + d[5..8] + d[8..])
            && (|d| < 8 ==> r == d)
  {
    var d := DigitsOf(value);
    if |d| >= 8 then d[..5] + "-" + d[5..8] + d[8..] else d
  }

  lemma DigitsOfSeparator(c: char)
    requires !IsDigit(c)
    ensures DigitsOf([c]) == []
  {
    assert [c][..0] == [];
  }

  lemma DigitsOfAllDigits(s: string)
    requires AllDigits(s)
    ensures DigitsOf(s) == s
  {
    DigitsOfDigits(s);
  }

  /** Appending digits appends them to the digits. */
  lemma DigitsOfPushDigits(x: string, y: string)
    requires AllDigits(y)
    ensures DigitsOf(x + y) == DigitsOf(x) + y
  {
    DigitsOfAppend(x, y);
    DigitsOfAllDigits(y);
  }

  /** Appending a separator leaves the digits as they were. */
  lemma DigitsOfPushSeparator(x: string, sep: char)
    requires !IsDigit(sep)
    ensures DigitsOf(x + [sep]) == DigitsOf(x)
  {
    DigitsOfAppend(x, [sep]);
    DigitsOfSeparator(sep);
    assert DigitsOf(x) + [] == DigitsOf(x);
  }

  /** A masked CPF keeps exactly the digits it was made from. */
  lemma FormatCpfDigits(value: string)
    ensures DigitsOf(FormatCpf(value)) == DigitsOf(value)
  {
    var d := DigitsOf(value);
    if |d| >= 11 {
      var a, b, c, e, rest := d[..3], d[3..6], d[6..9], d[9..11], d[11..];
      DigitsOfAllDigits(a);
      DigitsOfPushSeparator(a, '.');
      DigitsOfPushDigits(a + ".", b);
      assert a + b == d[..6];
      DigitsOfPushSeparator(a + "." + b, '.');
      DigitsOfPushDigits(a + "." + b + ".", c);
      assert d[..6] + c == d[..9];
      DigitsOfPushSeparator(a + "." + b + "." + c, '-');
      DigitsOfPushDigits(a + "." + b + "." + c + "-", e);
      assert d[..9] + e == d[..11];
      DigitsOfPushDigits(a + "." + b + "." + c + "-" + e, rest);
      assert d[..11] + rest == d;
    } else {
      DigitsOfAllDigits(d);
    }
  }

  lemma FormatCpfIdempotent(value: string)
    ensures FormatCpf(FormatCpf(value)) == FormatCpf(value)
  {
    FormatCpfDigits(value);
  }

  /** A masked CEP keeps exactly the digits it was made from. */
  lemma FormatCepDigits(value: string)
    ensures DigitsOf(FormatCep(value)) == DigitsOf(value)
  {
    var d := DigitsOf(value);
    if |d| >= 8 {
      var a, b, rest := d[..5], d[5..8], d[8..];
      DigitsOfAllDigits(a);
      DigitsOfPushSeparator(a, '-');
      DigitsOfPushDigits(a + "-", b);
      assert a + b == d[..8];
      DigitsOfPushDigits(a + "-" + b, rest);
      assert d[..8] + rest == d;
    } else {
      DigitsOfAllDigits(d);
    }
  }

  lemma FormatCepIdempotent(value: string)
    ensures FormatCep(FormatCep(value)) == FormatCep(value)
  {
    FormatCepDigits(value);
  }

  // ---------------------------------------------------------------------
  // The e-mail pattern
  // ---------------------------------------------------------------------

  /** `[^\s@]+` matches the whole of `s`. */
  predicate Word(s: string) {
    |s| > 0 && forall k :: 0 <= k < |s| ==> !IsSpace(s[k]) && s[k] != '@'
  }

  /** `/^[^\s@]+@[^\s@]+\.[^\s@]+$/.test(s)`: `s` splits as a word, an `@`,
      a word, a `.` and a word. */
  predicate MatchesEmailPattern(s: string) {
    exists i, j :: 0 < i && i + 1 < j < |s| - 1 && s[i] == '@' && s[j] == '.'
                   && Word(s[..i]) && Word(s[i + 1..j]) && Word(s[j + 1..])
  }

  /** The same strings described field by field: no whitespace, one `@`
      with text before it, and a `.` after the `@` with text on both
      sides. */
  predicate EmailShape(s: string) {
    && (forall k :: 0 <= k < |s| ==> !IsSpace(s[k]))
    && exists i :: 0 < i < |s| && s[i] == '@'
                   && (forall k :: 0 <= k < |s| && s[k] == '@' ==> k == i)
                   && exists j :: i + 1 < j < |s| - 1 && s[j] == '.'
  }

  /** A slice is a word exactly when it is non-empty and each of its
      characters is neither whitespace nor `@`. */
  lemma WordSlice(s: string, a: int, b: int)
    requires 0 <= a < b <= |s|
    ensures Word(s[a..b]) <==> forall k :: a <= k < b ==> !IsSpace(s[k]) && s[k] != '@'
  {
    if forall k :: a <= k < b ==> !IsSpace(s[k]) && s[k] != '@' {
      forall k | 0 <= k < b - a
        ensures !IsSpace(s[a..b][k]) && s[a..b][k] != '@'
      {
        assert s[a..b][k] == s[a + k];
      }
    }
    if Word(s[a..b]) {
      forall k | a <= k < b
        ensures !IsSpace(s[k]) && s[k] != '@'
      {
        assert s[a..b][k - a] == s[k];
      }
    }
  }

  lemma PatternGivesShape(s: string)
    requires MatchesEmailPattern(s)
    ensures EmailShape(s)
  {
    var i, j :| 0 < i && i + 1 < j < |s| - 1 && s[i] == '@' && s[j] == '.'
                && Word(s[..i]) && Word(s[i + 1..j]) && Word(s[j + 1..]);
    assert s[..i] == s[0..i] && s[j + 1..] == s[j + 1..|s|];
    WordSlice(s, 0, i);
    WordSlice(s, i + 1, j);
    WordSlice(s, j + 1, |s|);
    forall k | 0 <= k < |s|
      ensures !IsSpace(s[k]) && (s[k] == '@' ==> k == i)
    {
      if k < i {
      } else if i < k < j {
      } else if j < k {
      }
    }
    assert 0 < i < |s| && s[i] == '@'
           && (forall k :: 0 <= k < |s| && s[k] == '@' ==> k == i)
           && i + 1 < j < |s| - 1 && s[j] == '.';
  }

  lemma ShapeGivesPattern(s: string)
    requires EmailShape(s)
    ensures MatchesEmailPattern(s)
  {
    var i :| 0 < i < |s| && s[i] == '@'
             && (forall k :: 0 <= k < |s| && s[k] == '@' ==> k == i)
             && exists j :: i + 1 < j < |s| - 1 && s[j] == '.';
    var j :| i + 1 < j < |s| - 1 && s[j] == '.';
    WordSlice(s, 0, i);
    WordSlice(s, i + 1, j);
    WordSlice(s, j + 1, |s|);
    assert s[..i] == s[0..i] && s[j + 1..] == s[j + 1..|s|];
  }

  /** The pattern accepts exactly the strings of that shape. */
  lemma EmailPatternIsShape(s: string)
    ensures MatchesEmailPattern(s) <==> EmailShape(s)
  {
    if MatchesEmailPattern(s) {
      PatternGivesShape(s);
    }
    if EmailShape(s) {
      ShapeGivesPattern(s);
    }
  }

  // ---------------------------------------------------------------------
  // validateForm
  // ---------------------------------------------------------------------

  /** The required fields, in the order they are checked, each with its
      message. */
  const REQUIRED: seq<(Field, string)> := [
    (Nome, "Nome é obrigatório"),
    (Cpf, "CPF é obrigatório"),
    (EmailCorporativo, "Email corporativo é obrigatório"),
    (Telefone, "Telefone é obrigatório"),
    (Cargo, "Cargo é obrigatório"),
    (Departamento, "Departamento é obrigatório"),
    (Salario, "Salário é obrigatório"),
    (Rua, "Rua é obrigatória"),
    (Numero, "Número é obrigatório"),
    (Bairro, "Bairro é obrigatório"),
    (Cidade, "Cidade é obrigatória"),
    (Estado, "Estado é obrigatório"),
    (Cep, "CEP é obrigatório"),
    (DataAdmissao, "Data de admissão é obrigatória")
  ]

  const SALARIO_INVALIDO := "Salário deve ser um valor válido maior que zero"
  const CPF_INVALIDO := "CPF deve ter 11 dígitos"
  const EMAIL_INVALIDO := "Email corporativo deve ser válido"

  /** The position of the first field of `reqs` from `i` on that is blank
      after `trim`, or `|reqs|` when there is none. */
  function FirstBlankFrom(f: FormData, reqs: seq<(Field, string)>, i: nat): (k: nat)
    requires i <= |reqs|
    ensures i <= k <= |reqs|
    ensures forall m :: i <= m < k ==> !IsBlank(Get(f, reqs[m].0))
    ensures k < |reqs| ==> IsBlank(Get(f, reqs[k].0))
    decreases |reqs| - i
  {
    if i == |reqs| then i
    else if IsBlank(Get(f, reqs[i].0)) then i
    else FirstBlankFrom(f, reqs, i + 1)
  }

  /** The message of the first field of `reqs` that is blank after `trim`. */
  function FirstBlank(f: FormData, reqs: seq<(Field, string)>): (r: Option<string>)
    ensures r.None? <==> forall k :: 0 <= k < |reqs| ==> !IsBlank(Get(f, reqs[k].0))
    ensures r.Some? ==> exists k :: 0 <= k < |reqs| && IsBlank(Get(f, reqs[k].0)) && r.value == reqs[k].1
                                   && forall m :: 0 <= m < k ==> !IsBlank(Get(f, reqs[m].0))
  {
    var k := FirstBlankFrom(f, reqs, 0);
    if k < |reqs| then Some(reqs[k].1) else None
  }

  /** The salary text parses to a number greater than zero. */
  predicate SalaryOk(f: FormData, parseNumber: string -> Option<real>) {
    parseNumber(f.salario).Some? && parseNumber(f.salario).value > 0.0
  }

  /** `validateForm()`: the message of the first failing check, or `None`
      when the form may be sent. */
  function Validate(f: FormData, parseNumber: string -> Option<real>): (r: Option<string>)
    ensures r.None? <==>
              && (forall k :: 0 <= k < |REQUIRED| ==> !IsBlank(Get(f, REQUIRED[k].0)))
              && SalaryOk(f, parseNumber)
              && |DigitsOf(f.cpf)| == 11
              && EmailShape(f.emailCorporativo)
    ensures FirstBlank(f, REQUIRED).Some? ==> r == FirstBlank(f, REQUIRED)
    ensures FirstBlank(f, REQUIRED).None? && !SalaryOk(f, parseNumber) ==> r == Some(SALARIO_INVALIDO)
    ensures FirstBlank(f, REQUIRED).None? && SalaryOk(f, parseNumber) && |DigitsOf(f.cpf)| != 11
            ==> r == Some(CPF_INVALIDO)
    ensures FirstBlank(f, REQUIRED).None? && SalaryOk(f, parseNumber) && |DigitsOf(f.cpf)| == 11
            && !EmailShape(f.emailCorporativo)
            ==> r == Some(EMAIL_INVALIDO)
  {
    EmailPatternIsShape(f.emailCorporativo);
    var blank := FirstBlank(f, REQUIRED);
    if blank.Some? then blank
    else if !SalaryOk(f, parseNumber) then Some(SALARIO_INVALIDO)
    else if |DigitsOf(f.cpf)| != 11 then Some(CPF_INVALIDO)
    else if !MatchesEmailPattern(f.emailCorporativo) then Some(EMAIL_INVALIDO)
    else None
  }

  /** A form the CPF mask filled in passes the CPF check exactly when
      eleven digits were typed. */
  lemma MaskedCpfCheck(typed: string)
    ensures |DigitsOf(FormatCpf(typed))| == 11 <==> |DigitsOf(typed)| == 11
  {
    FormatCpfDigits(typed);
  }

  // ---------------------------------------------------------------------
  // The form's state
  // ---------------------------------------------------------------------

  class FuncionarioDialog {
    var formData: FormData
    var error: Option<string>

    constructor ()
      ensures formData == EmptyForm && error == None
    {
      formData, error := EmptyForm, None;
    }

    /** `handleInputChange(field, value)`: the field takes the value and
        any error is cleared. */
    method HandleInputChange(field: Field, value: string)
      modifies this
      ensures formData == Set(old(formData), field, value)
      ensures error == None
    {
      formData := Set(formData, field, value);
      error := None;
    }

    /** The CPF input's `onChange`. */
    method TypeCpf(typed: string)
      modifies this
      ensures formData == Set(old(formData), Cpf, FormatCpf(typed))
      ensures error == None
    {
      HandleInputChange(Cpf, FormatCpf(typed));
    }

    /** The CEP input's `onChange`. */
    method TypeCep(typed: string)
      modifies this
      ensures formData == Set(old(formData), Cep, FormatCep(typed))
      ensures error == None
    {
      HandleInputChange(Cep, FormatCep(typed));
    }

    /** The start of `handleSubmit`: a failing check is shown and nothing is
        sent; otherwise the error is cleared and the request goes out. */
    method CheckBeforeSend(parseNumber: string -> Option<real>) returns (send: bool)
      modifies this
      ensures send <==> Validate(old(formData), parseNumber).None?
      ensures error == Validate(old(formData), parseNumber)
      ensures formData == old(formData)
    {
      var validationError := Validate(formData, parseNumber);
      error := validationError;
      send := validationError.None?;
    }
  }
}
