/** The task entity of internal/domain/task.go. */
module Domain {
  import opened GoInt

  /**
   * A `time.Time`, kept opaque: `wall` stands for whatever the value holds.
   * `ZeroTime` is Go's zero value `time.Time{}`.
   */
  datatype Time = Time(wall: int)

  const ZeroTime: Time := Time(0)

  /** `domain.Task`. */
  datatype Task = Task(id: Int64, name: string, status: bool, createdAt: Time, updatedAt: Time)

  /** `domain.TaskParam`, an empty filter: it has no fields yet. */
  datatype TaskParam = TaskParam
}
