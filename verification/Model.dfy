/** Rows and enumerations shared by the control plane and the crawl runtime.
    Identifiers are UUIDs in the service; only their equality matters, so they are numbers here. */
module Model {
  datatype Option<+T> = None | Some(value: T)

  type Id = nat

  datatype SourceType = TikTok | Facebook | YouTube | FileUpload | Webhook
  datatype Category = Crawl | Passive
  datatype SourceStatus = Pending | Ready | Active | Paused | Failed | Completed | Archived
  datatype Onboarding = NotRequired | Pending | Analyzing | Suggested | Confirmed | Failed
  datatype DryrunStatus = NotRequired | Pending | Running | Success | Warning | Failed
  datatype CrawlMode = Sleep | Normal | Crisis
  datatype TargetType = Keyword | Profile | PostUrl
  datatype JobStatus = Pending | Running | Success | Partial | Failed | Cancelled

  predicate IsUsableDryrunStatus(s: DryrunStatus) {
    s.Success? || s.Warning?
  }

  predicate IsTerminalDryrunStatus(s: DryrunStatus) {
    s.Failed? || s.Warning? || s.Success?
  }

  /** The decoded view of a target's `platform_meta` JSON. `flushed` says that the SQL visibility
      filter of target listings hides the row; `text` stands for everything not decoded here. */
  datatype Meta =
    | NoMeta
    | Meta(text: string, flushed: bool,
           pageIds: seq<string>, pageId: string,
           usernames: seq<string>, secUids: seq<string>, username: string, secUid: string,
           parseIds: seq<string>)

  /** The columns that describe a source to its users; no operation decides on them. */
  datatype Labels = Labels(name: string, description: string, accountRef: string)

  /** A row of `data_sources`. */
  datatype Source = Source(
    project: Id, labels: Labels, sourceType: SourceType, category: Category, status: SourceStatus,
    onboarding: Onboarding, dryrunStatus: DryrunStatus, dryrunLastResult: Option<Id>,
    crawlMode: Option<CrawlMode>, interval: Option<int>,
    config: string, mappingRules: string, webhookId: string, webhookSecret: string,
    deleted: bool)

  /** A row of `crawl_targets` (without the runtime timestamps). */
  datatype Target = Target(
    source: Id, targetType: TargetType, values: seq<string>, targetLabel: string, meta: Meta,
    isActive: bool, priority: int, interval: int)

  predicate Visible(t: Target) {
    t.meta.Meta? ==> !t.meta.flushed
  }

  /** A row of `dryrun_results`; rows are kept in creation order. */
  datatype Dryrun = Dryrun(id: Id, source: Id, target: Option<Id>, job: Id, status: DryrunStatus, completed: bool)

  /** A row of `crawl_mode_changes`; rows are grouped by source, in insertion order. */
  datatype ModeChange = ModeChange(fromMode: CrawlMode, toMode: CrawlMode)
}
