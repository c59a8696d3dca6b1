/** The employee creation handler (`POST` of src/app/api/funcionarios/route.ts):
    a chain of checks that stops at the first failure (required fields,
    CPF already in use, e-mail already in use, salary, admission date), then
    the insertion of the new employee with its defaults. `parseFloat` and
    `new Date` are the parsers `parseNumber` and `parseDate`; the id the
    database generates is the parameter `id`. */
module EmployeeApi {
  import opened Common
  import opened Dates
  import opened Database

  const CAMPOS_OBRIGATORIOS := "Campos obrigatórios não preenchidos"
  const CPF_DUPLICADO := "CPF já cadastrado"
  const EMAIL_DUPLICADO := "Email corporativo já cadastrado"
  const SALARIO_INVALIDO := "Salário deve ser um valor válido maior que zero"
  const DATA_INVALIDA := "Data de admissão inválida"

  const ATIVO := "ATIVO"

  /** `body.endereco` when it is given. */
  datatype EnderecoBody = EnderecoBody(
    rua: string,
    numero: string,
    complemento: Option<string>,
    bairro: string,
    cidade: string,
    estado: string,
    cep: string)

  /** The JSON body of the request; `None` is an absent or `null` field. */
  datatype EmployeeBody = EmployeeBody(
    nome: Option<string>,
    cpf: Option<string>,
    emailCorporativo: Option<string>,
    telefone: Option<string>,
    cargo: Option<string>,
    departamento: Option<string>,
    salario: Scalar,
    dataAdmissao: Option<string>,
    cnpj: Option<string>,
    emailPessoal: Option<string>,
    telefoneCorporativo: Option<string>,
    teams: Option<string>,
    chavePix: Option<string>,
    observacoes: Option<string>,
    status: Option<string>,
    endereco: Option<EnderecoBody>)

  /** The eight required fields are all truthy. */
  predicate HasRequired(b: EmployeeBody) {
    && Truthy(b.nome) && Truthy(b.cpf) && Truthy(b.emailCorporativo) && Truthy(b.telefone)
    && Truthy(b.cargo) && Truthy(b.departamento) && ScalarTruthy(b.salario) && Truthy(b.dataAdmissao)
  }

  /** `parseFloat(body.salario)` is a number and not negative. */
  predicate ValidSalary(b: EmployeeBody, parseNumber: string -> Option<real>) {
    var s := ParseScalar(b.salario, parseNumber);
    s.Some? && s.value >= 0.0
  }

  /** The nested address record built from `body.endereco`. */
  function NewEndereco(e: EnderecoBody): Endereco {
    Endereco(e.rua, e.numero, OrNull(e.complemento), e.bairro, e.cidade, e.estado, e.cep)
  }

  /** The reply of the handler to `body` over the employee table
      `funcionarios`. */
  function Create(
    funcionarios: map<string, Funcionario>, b: EmployeeBody, id: string,
    parseNumber: string -> Option<real>, parseDate: string -> Option<Date>): (r: Response<Funcionario>)
    ensures r.Err? ==> r.status == 400
    ensures !HasRequired(b) ==> r == Err(400, CAMPOS_OBRIGATORIOS)
    ensures HasRequired(b) && CpfTaken(funcionarios, b.cpf.value) ==> r == Err(400, CPF_DUPLICADO)
    ensures HasRequired(b) && !CpfTaken(funcionarios, b.cpf.value) && EmailTaken(funcionarios, b.emailCorporativo.value)
            ==> r == Err(400, EMAIL_DUPLICADO)
    ensures r.Ok? <==>
              && HasRequired(b)
              && !CpfTaken(funcionarios, b.cpf.value) && !EmailTaken(funcionarios, b.emailCorporativo.value)
              && ValidSalary(b, parseNumber) && parseDate(b.dataAdmissao.value).Some?
    ensures r.Ok? ==>
              && r.status == 201
              && r.value.id == id
              && r.value.cpf == b.cpf.value && r.value.emailCorporativo == b.emailCorporativo.value
              && r.value.salario == ParseScalar(b.salario, parseNumber).value && r.value.salario >= 0.0
              && r.value.dataAdmissao == parseDate(b.dataAdmissao.value).value
              && (Truthy(b.status) ==> r.value.status == b.status.value)
              && (!Truthy(b.status) ==> r.value.status == ATIVO)
              && r.value.cnpj == OrNull(b.cnpj) && r.value.emailPessoal == OrNull(b.emailPessoal)
              && r.value.telefoneCorporativo == OrNull(b.telefoneCorporativo) && r.value.teams == OrNull(b.teams)
              && r.value.chavePix == OrNull(b.chavePix) && r.value.observacoes == OrNull(b.observacoes)
              && r.value.nome == b.nome.value && r.value.telefone == b.telefone.value
              && r.value.cargo == b.cargo.value && r.value.departamento == b.departamento.value
              && (r.value.endereco.Some? <==> b.endereco.Some?)
    ensures r.Ok? && b.endereco.Some? ==>
              var e, a := r.value.endereco.value, b.endereco.value;
              && e.rua == a.rua && e.numero == a.numero && e.complemento == OrNull(a.complemento)
              && e.bairro == a.bairro && e.cidade == a.cidade && e.estado == a.estado && e.cep == a.cep
  {
    if !HasRequired(b) then
      Err(400, CAMPOS_OBRIGATORIOS)
    else if CpfTaken(funcionarios, b.cpf.value) then
      Err(400, CPF_DUPLICADO)
    else if EmailTaken(funcionarios, b.emailCorporativo.value) then
      Err(400, EMAIL_DUPLICADO)
    else
      var salario := ParseScalar(b.salario, parseNumber);
      if salario.None? || salario.value < 0.0 then
        Err(400, SALARIO_INVALIDO)
      else
        var dataAdmissao := parseDate(b.dataAdmissao.value);
        if dataAdmissao.None? then
          Err(400, DATA_INVALIDA)
        else
          Ok(201, Funcionario(
            id,
            b.cpf.value,
            OrNull(b.cnpj),
            b.nome.value,
            b.emailCorporativo.value,
            OrNull(b.emailPessoal),
            b.telefone.value,
            OrNull(b.telefoneCorporativo),
            OrNull(b.teams),
            dataAdmissao.value,
            b.cargo.value,
            b.departamento.value,
            salario.value,
            OrNull(b.chavePix),
            OrNull(b.observacoes),
            OrElse(b.status, ATIVO),
            if b.endereco.Some? then Some(NewEndereco(b.endereco.value)) else None))
  }

  /** An accepted employee can join the table without breaking the
      uniqueness of CPF and corporate e-mail. */
  lemma CreateKeepsUnique(
    funcionarios: map<string, Funcionario>, b: EmployeeBody, id: string,
    parseNumber: string -> Option<real>, parseDate: string -> Option<Date>)
    requires UniqueEmployees(funcionarios) && id !in funcionarios
    requires Create(funcionarios, b, id, parseNumber, parseDate).Ok?
    ensures var f := Create(funcionarios, b, id, parseNumber, parseDate).value;
            UniqueEmployees(funcionarios[id := f])
  {
    var f := Create(funcionarios, b, id, parseNumber, parseDate).value;
    InsertKeepsUnique(funcionarios, f);
  }

  /** Whatever the body, a second employee with a stored CPF is refused. */
  lemma DuplicateCpfRefused(
    funcionarios: map<string, Funcionario>, b: EmployeeBody, id: string,
    parseNumber: string -> Option<real>, parseDate: string -> Option<Date>, k: string)
    requires k in funcionarios && b.cpf == Some(funcionarios[k].cpf) && funcionarios[k].cpf != ""
    ensures Create(funcionarios, b, id, parseNumber, parseDate).Err?
  {
    assert CpfTaken(funcionarios, b.cpf.value);
  }

  /** The handler over the store: the reply of `Create`, and the new
      employee inserted when it is accepted. */
  method Post(
    db: Store, b: EmployeeBody, id: string,
    parseNumber: string -> Option<real>, parseDate: string -> Option<Date>) returns (r: Response<Funcionario>)
    requires db.Valid() && id !in db.funcionarios
    modifies db
    ensures r == Create(old(db.funcionarios), b, id, parseNumber, parseDate)
    ensures r.Ok? ==> db.funcionarios == old(db.funcionarios)[id := r.value]
    ensures r.Err? ==> db.funcionarios == old(db.funcionarios)
    ensures db.ferias == old(db.ferias) && db.alteracoes == old(db.alteracoes)
    ensures db.Valid()
  {
    r := Create(db.funcionarios, b, id, parseNumber, parseDate);
    if r.Ok? {
      CreateKeepsUnique(db.funcionarios, b, id, parseNumber, parseDate);
      db.funcionarios := db.funcionarios[id := r.value];
    }
  }
}
