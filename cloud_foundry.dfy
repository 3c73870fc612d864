/**
 * The values the run-state tracker reads from the Cloud Foundry client
 * library, and the IDE's own `RunState`.  Every one of them is an immutable
 * snapshot; a Java field that may be null is an `Option`.
 */
module CloudFoundry {
  import opened Outcomes

  /** The IDE's application-level run state. */
  datatype RunState = Unknown | Inactive | Starting | Running | Flapping | Crashed

  /**
   * The state the platform reports for one instance.  `Other` stands for the
   * client library's UNKNOWN constant and for any constant it may add later:
   * none of them is named by the tracker's switch.
   */
  datatype InstanceState = Down | Starting | Running | Crashed | Flapping | Other(name: string)

  /** The desired state declared for an application. */
  datatype AppState = Updating | Started | Stopped

  /** One record of `ApplicationStats.getRecords()`. */
  datatype InstanceStats = InstanceStats(state: Option<InstanceState>)

  /** The statistics of an application; its record list may be null. */
  datatype ApplicationStats = ApplicationStats(records: Option<seq<InstanceStats>>)

  /** A Cloud Foundry application, reduced to its desired state. */
  datatype CloudApplication = CloudApplication(state: AppState)

  /** An application together with its (possibly null) statistics. */
  datatype CloudAppInstances = CloudAppInstances(app: CloudApplication, stats: Option<ApplicationStats>)
}
