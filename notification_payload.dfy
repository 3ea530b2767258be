/** The payload of the user-facing notification sent at the end of an ingestion job. */
module NotificationPayloads {
  import opened Wrappers

  const StatusSuccess := "SUCCESS"
  const StatusFailed := "FAILED"

  datatype NotificationPayload = NotificationPayload(
    status: string,
    fileName: string,
    accountName: string,
    errorCode: Option<string>,
    errorMessage: Option<string>)

  /** What every payload built by the two factories satisfies. */
  predicate WellFormed(p: NotificationPayload) {
    && (p.status == StatusSuccess || p.status == StatusFailed)
    && (p.errorCode.Some? ==> p.status == StatusFailed)
    && (p.status == StatusSuccess ==> p.errorCode.None? && p.errorMessage.None?)
  }

  /** `NotificationPayload.success`: a successful outcome carries no error. */
  function Success(fileName: string, accountName: string): (p: NotificationPayload)
    ensures WellFormed(p)
    ensures p.status == StatusSuccess
    ensures p.errorCode.None? && p.errorMessage.None?
    ensures p.fileName == fileName && p.accountName == accountName
  {
    NotificationPayload(StatusSuccess, fileName, accountName, None, None)
  }

  /** `NotificationPayload.error`: a failed outcome carries exactly the given code and message. */
  function Error(fileName: string, accountName: string, errorCode: string, errorMessage: string): (p: NotificationPayload)
    ensures WellFormed(p)
    ensures p.status == StatusFailed
    ensures p.errorCode == Some(errorCode) && p.errorMessage == Some(errorMessage)
    ensures p.fileName == fileName && p.accountName == accountName
  {
    NotificationPayload(StatusFailed, fileName, accountName, Some(errorCode), Some(errorMessage))
  }

  /** The two factories never build the same payload: the status tells them apart. */
  lemma FactoriesDisjoint(fileName: string, accountName: string, code: string, message: string)
    ensures Success(fileName, accountName) != Error(fileName, accountName, code, message)
  {
    assert StatusSuccess[0] != StatusFailed[0];
  }
}
