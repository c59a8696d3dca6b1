/** The records the pages receive from the employee and vacation request
    handlers, reduced to the fields the pages read, and the status values
    they compare against. */
module Records {
  import opened Dates

  const ATIVO := "ATIVO"

  const PENDENTE := "PENDENTE"
  const APROVADA := "APROVADA"
  const REJEITADA := "REJEITADA"

  /** An employee as `/api/funcionarios` lists it. */
  datatype Employee = Employee(
    id: string,
    nome: string,
    cargo: string,
    departamento: string,
    dataAdmissao: string,
    salario: real,
    status: string)

  /** A vacation request as `/api/ferias` lists it, with the name of its
      employee; the dates are the calendar days the pages read from it. */
  datatype VacationRequest = VacationRequest(
    id: string,
    funcionarioId: string,
    funcionarioNome: string,
    dataInicio: Date,
    dataFim: Date,
    diasSolicitados: int,
    status: string)

  predicate IsActive(f: Employee) { f.status == ATIVO }
  predicate IsPending(r: VacationRequest) { r.status == PENDENTE }
  predicate IsApproved(r: VacationRequest) { r.status == APROVADA }
  predicate IsRejected(r: VacationRequest) { r.status == REJEITADA }

  /** `funcionarios.map(f => f.salario)` */
  function Salaries(fs: seq<Employee>): (r: seq<real>)
    ensures |r| == |fs|
    ensures forall i :: 0 <= i < |fs| ==> r[i] == fs[i].salario
  {
    if fs == [] then [] else Salaries(fs[..|fs| - 1]) + [fs[|fs| - 1].salario]
  }
}
