/** `todoService`: each member forwards its argument unchanged to the
    repository and returns what the repository returns, errors included. */
module TodoService {
  import opened Wrappers
  import opened Time
  import opened TodoRepository

  class TodoService {
    /** The repository the service was composed with (`todoRepository`). */
    const repository: PgTodoRepository

    constructor (repository: PgTodoRepository)
      ensures this.repository == repository
    {
      this.repository := repository;
    }

    method GetAll() returns (r: seq<TodoWithAuditLogs>)
      requires repository.Inv()
      ensures r == GetAllView(repository.State())
    {
      r := repository.GetAll();
    }

    method Create(input: CreateInput, now: Instant) returns (r: Todo)
      requires repository.Inv()
      modifies repository
      ensures repository.Inv()
      ensures (repository.State(), r) == CreateStep(old(repository.State()), input, now)
    {
      r := repository.Create(input, now);
    }

    method Update(input: UpdateInput, now: Instant) returns (r: Result<Todo, Error>)
      requires repository.Inv()
      modifies repository
      ensures repository.Inv()
      ensures (repository.State(), r) == UpdateStep(old(repository.State()), input, now)
    {
      r := repository.Update(input, now);
    }

    method Delete(id: int, now: Instant) returns (r: DeleteResult)
      requires repository.Inv()
      modifies repository
      ensures repository.Inv()
      ensures r.success
      ensures (repository.State(), r) == DeleteStep(old(repository.State()), id, now)
    {
      r := repository.Delete(id, now);
    }

    method Toggle(id: int, now: Instant) returns (r: Result<Todo, Error>)
      requires repository.Inv()
      modifies repository
      ensures repository.Inv()
      ensures (repository.State(), r) == ToggleStep(old(repository.State()), id, now)
    {
      r := repository.Toggle(id, now);
    }
  }

  /** The service scenario of toggling twice: the flag comes back and the
      history of the row gains two TOGGLE entries. */
  method ToggleBackScenario(service: TodoService, title: string, t1: Instant, t2: Instant, t3: Instant)
    returns (created: Todo, first: Result<Todo, Error>, second: Result<Todo, Error>)
    requires service.repository.Inv()
    modifies service.repository
    ensures !created.doneFlag
    ensures first.Success? && first.value.doneFlag
    ensures second.Success? && !second.value.doneFlag
  {
    created := service.Create(CreateInput(title, Null), t1);
    ghost var db := service.repository.State();
    SelectById(db, created.id);
    first := service.Toggle(created.id, t2);
    ToggleTwiceRestores(db, created.id, t2, t3);
    second := service.Toggle(created.id, t3);
  }

  /** Update and toggle of an id that was never created fail with the
      repository's message. */
  method MissingIdScenario(service: TodoService, t: Instant)
    returns (u: Result<Todo, Error>, g: Result<Todo, Error>)
    requires service.repository.Inv()
    requires service.repository.State() == Empty
    modifies service.repository
    ensures u.Failure? && Message(u.error) == "Todo not found or has been deleted"
    ensures g.Failure? && Message(g.error) == "Todo not found or has been deleted"
  {
    SelectById(service.repository.State(), 999);
    u := service.Update(UpdateInput(999, Some("Does not exist"), Undefined), t);
    g := service.Toggle(999, t);
  }
}
