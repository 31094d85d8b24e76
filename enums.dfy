/** The enumerations the test engine passes between its components. */
module Enums {
  datatype PluginType = Algorithm | Data | Model | Serializer

  datatype ModelMode = Api | Upload

  datatype ModelType = Classification | Regression

  datatype TaskType = New | Pending

  datatype TaskStatus = TaskPending | TaskRunning | TaskSuccess | TaskError | TaskCancelled

  datatype ServiceStatus = Init | ServiceRunning | Done | ServiceError

  datatype ServiceResult = Valid | Invalid | NoResult

  datatype ServiceType = ValidateModelService | ValidateDatasetService

  datatype WorkerType = ApiServer | ProcessWorker | ServiceWorker

  const PendingName: string := "PENDING"
  const RunningName: string := "RUNNING"
  const SuccessName: string := "SUCCESS"
  const ErrorName: string := "ERROR"
  const CancelledName: string := "CANCELLED"

  /** Enum member names, as `.name` gives them. */
  function TaskStatusName(s: TaskStatus): string {
    match s
    case TaskPending => PendingName
    case TaskRunning => RunningName
    case TaskSuccess => SuccessName
    case TaskError => ErrorName
    case TaskCancelled => CancelledName
  }

  function ServiceStatusName(s: ServiceStatus): string {
    match s
    case Init => "INIT"
    case ServiceRunning => "RUNNING"
    case Done => "DONE"
    case ServiceError => "ERROR"
  }

  function ServiceResultName(r: ServiceResult): string {
    match r
    case Valid => "VALID"
    case Invalid => "INVALID"
    case NoResult => "NONE"
  }
}
