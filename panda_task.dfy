/** The part of the Panda behaviour-tree library's Task that the drone scripts
    use. The library's source is not part of this model, so everything
    assumed about it is stated here and nowhere else:
      - a task being ticked is Running and knows whether this is the first
        tick of its activation (isStarting);
      - Succeed() makes it Succeeded;
      - Complete(true) behaves as Succeed() and Complete(false) leaves the
        task as it is (still Running) -- it never fails the task;
      - a [Task] method returning bool is a condition: true succeeds the
        task, false fails it. */
module PandaTasks {

  datatype Status = Running | Succeeded | Failed

  datatype Task = Task(status: Status, isStarting: bool) {

    /** Task.Succeed(): the task ends successfully for this activation. */
    function Succeed(): (t: Task)
      ensures t.status == Succeeded && t.isStarting == isStarting
    {
      this.(status := Succeeded)
    }

    /** Task.Complete(ok): succeed when ok, otherwise keep running. */
    function Complete(ok: bool): (t: Task)
      ensures t.isStarting == isStarting
      ensures ok ==> t.status == Succeeded
      ensures !ok ==> t.status == status
      ensures t.status == Failed ==> status == Failed
    {
      if ok then Succeed() else this
    }
  }

  /** How the scheduler presents a task on the first tick of an activation. */
  function Starting(): (t: Task)
    ensures t.status == Running && t.isStarting
  {
    Task(Running, true)
  }

  /** How the scheduler presents a task on a later tick of the same activation. */
  function Continuing(): (t: Task)
    ensures t.status == Running && !t.isStarting
  {
    Task(Running, false)
  }

  /** The status the library gives a condition task returning b. */
  function ConditionStatus(b: bool): (s: Status)
    ensures s != Running
    ensures s == Succeeded <==> b
  {
    if b then Succeeded else Failed
  }
}
