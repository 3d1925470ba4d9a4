/** Deals (transactions) as the API server returns them to the search and update windows. */
module Deals {

  /**
   * One deal record. Optional text fields the server may omit are read as '';
   * `hasChildren` is false when absent.
   */
  datatype Deal = Deal(
    no: string,
    dealType: string,
    dealDate: string,
    dealName: string,
    dealPartner: string,
    dealPrice: int,
    dealRemark: string,
    recStatus: string,
    filePath: string,
    hasChildren: bool)

  /** The document type a form starts with, and the one an update window shows when a deal has none. */
  const DefaultDocType: string := "領収書"

  /** The status of the current version of a deal; older versions carry other statuses. */
  const StatusNew: string := "NEW"

  /** The status an update request asks the server to record. */
  const StatusUpdate: string := "UPDATE"
}
