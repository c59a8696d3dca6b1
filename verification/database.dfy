/** The tables the request handlers read and write through the ORM, held as
    maps from record id to record: employees (with their address), vacation
    requests and salary changes. The store's invariant is the one the
    handlers keep: every record sits under its own id, no two employees
    share a CPF or a corporate e-mail, and every vacation request and salary
    change belongs to an employee of the store. */
module Database {
  import opened Common
  import opened Dates

  /** A moment of the server clock, in milliseconds. */
  type Timestamp = int

  datatype Endereco = Endereco(
    rua: string,
    numero: string,
    complemento: Option<string>,
    bairro: string,
    cidade: string,
    estado: string,
    cep: string)

  /** A stored employee. */
  datatype Funcionario = Funcionario(
    id: string,
    cpf: string,
    cnpj: Option<string>,
    nome: string,
    emailCorporativo: string,
    emailPessoal: Option<string>,
    telefone: string,
    telefoneCorporativo: Option<string>,
    teams: Option<string>,
    dataAdmissao: Date,
    cargo: string,
    departamento: string,
    salario: real,
    chavePix: Option<string>,
    observacoes: Option<string>,
    status: string,
    endereco: Option<Endereco>)

  /** A stored vacation request with its audit fields. */
  datatype Ferias = Ferias(
    id: string,
    funcionarioId: string,
    ano: int,
    dataInicio: Date,
    dataFim: Date,
    diasSolicitados: int,
    diasDisponiveis: int,
    motivo: Option<string>,
    status: string,
    observacoes: string,
    dataAprovacao: Option<Timestamp>,
    aprovadoPor: Option<string>,
    dataRecusa: Option<Timestamp>,
    recusadoPor: Option<string>,
    motivoRecusa: Option<string>)

  /** A stored salary change. */
  datatype AlteracaoSalarial = AlteracaoSalarial(
    id: string,
    funcionarioId: string,
    salarioAnterior: real,
    novoSalario: real,
    percentualAumento: real,
    motivo: string,
    dataAlteracao: Timestamp,
    aprovadoPor: string)

  /** `findUnique({ where: { cpf } })` finds a record. */
  predicate CpfTaken(m: map<string, Funcionario>, cpf: string) {
    exists k :: k in m && m[k].cpf == cpf
  }

  /** `findUnique({ where: { emailCorporativo } })` finds a record. */
  predicate EmailTaken(m: map<string, Funcionario>, email: string) {
    exists k :: k in m && m[k].emailCorporativo == email
  }

  /** The unique columns of the employee table. */
  predicate UniqueEmployees(m: map<string, Funcionario>) {
    && (forall k :: k in m ==> m[k].id == k)
    && (forall a, b :: a in m && b in m && a != b ==> m[a].cpf != m[b].cpf)
    && (forall a, b :: a in m && b in m && a != b ==> m[a].emailCorporativo != m[b].emailCorporativo)
  }

  /** Inserting an employee under a fresh id, with a CPF and an e-mail no
      stored employee has, keeps the columns unique. */
  lemma InsertKeepsUnique(m: map<string, Funcionario>, f: Funcionario)
    requires UniqueEmployees(m)
    requires f.id !in m && !CpfTaken(m, f.cpf) && !EmailTaken(m, f.emailCorporativo)
    ensures UniqueEmployees(m[f.id := f])
  {
    var m' := m[f.id := f];
    forall a, b | a in m' && b in m' && a != b
      ensures m'[a].cpf != m'[b].cpf && m'[a].emailCorporativo != m'[b].emailCorporativo
    {
      if a == f.id {
        assert b in m;
      } else if b == f.id {
        assert a in m;
      }
    }
  }

  /** Changing an employee's salary touches no unique column. */
  lemma SalaryUpdateKeepsUnique(m: map<string, Funcionario>, k: string, salario: real)
    requires UniqueEmployees(m) && k in m
    ensures UniqueEmployees(m[k := m[k].(salario := salario)])
  {
  }

  predicate OwnedFerias(ferias: map<string, Ferias>, funcionarios: map<string, Funcionario>) {
    forall k :: k in ferias ==> ferias[k].id == k && ferias[k].funcionarioId in funcionarios
  }

  predicate OwnedAlteracoes(alteracoes: map<string, AlteracaoSalarial>, funcionarios: map<string, Funcionario>) {
    forall k :: k in alteracoes ==> alteracoes[k].id == k && alteracoes[k].funcionarioId in funcionarios
  }

  /** The database. */
  class Store {
    var funcionarios: map<string, Funcionario>
    var ferias: map<string, Ferias>
    var alteracoes: map<string, AlteracaoSalarial>

    predicate Valid()
      reads this
    {
      && UniqueEmployees(funcionarios)
      && OwnedFerias(ferias, funcionarios)
      && OwnedAlteracoes(alteracoes, funcionarios)
    }

    constructor ()
      ensures Valid()
      ensures funcionarios == map[] && ferias == map[] && alteracoes == map[]
    {
      funcionarios, ferias, alteracoes := map[], map[], map[];
    }
  }
}
