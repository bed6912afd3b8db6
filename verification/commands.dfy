/**
 * The `fetch_contributions` command: serve the cache when it can, otherwise
 * ask GitHub, write a success through to the cache, and always answer with a
 * `FetchResult`.
 */
module Commands {
  import opened Wrappers
  import Json
  import opened Contribution
  import opened Cache
  import opened GitHub

  /** The command's reply, the file system after it, and whether it asked the
      network at all. */
  datatype Outcome = Outcome(reply: Result<FetchResult, string>, fs: FileSystem, networkUsed: bool)

  /** `fetch_contributions`. `response` is what GitHub would answer if asked;
      `saveFault` is the error the write-through would meet, if any. */
  function FetchContributions(fs: FileSystem, appData: Result<Path, string>, username: string, now: int,
                              response: HttpOutcome, render: Json.Value -> string,
                              saveFault: Option<string>): (o: Outcome)
    // the outer result is never an error on these paths
    ensures o.reply.Success? && WellShaped(o.reply.value)
    // a cache hit serves the cached days without the network and writes nothing
    ensures Load(fs, appData, username, now).Success? ==>
      && o.reply.value == Served(Load(fs, appData, username, now).value)
      && o.fs == fs && !o.networkUsed
    // a cache miss always asks the network
    ensures Load(fs, appData, username, now).Failure? ==> o.networkUsed
    // ok replies carry either the cached days or the fetched days
    ensures o.reply.value.ok && o.networkUsed ==>
      && FetchFromGitHub(response, render).Success?
      && o.reply.value.data == Some(FetchFromGitHub(response, render).value)
    // a failed fetch passes its error text on and leaves the cache alone
    ensures o.networkUsed && FetchFromGitHub(response, render).Failure? ==>
      o.reply.value == Refused(FetchFromGitHub(response, render).error) && o.fs == fs
    // a successful fetch is written through, whether or not the write works
    ensures o.networkUsed && FetchFromGitHub(response, render).Success? ==>
      && o.reply.value.ok
      && o.fs == Save(fs, appData, username, FetchFromGitHub(response, render).value, now, saveFault).fs
    // the cache changes only after a live success
    ensures o.fs != fs ==> o.networkUsed && o.reply.value.ok
  {
    match Load(fs, appData, username, now)
    case Success(cached) => Outcome(Success(Served(cached)), fs, false)
    case Failure(_) =>
      match FetchFromGitHub(response, render)
      case Success(days) =>
        var saved := Save(fs, appData, username, days, now, saveFault);
        Outcome(Success(Served(days)), saved.fs, true)
      case Failure(e) => Outcome(Success(Refused(e)), fs, true)
  }

  /** Whether the write-through works or fails never changes the reply. */
  lemma SaveFaultInvisible(fs: FileSystem, appData: Result<Path, string>, username: string, now: int,
                           response: HttpOutcome, render: Json.Value -> string, f1: Option<string>, f2: Option<string>)
    ensures FetchContributions(fs, appData, username, now, response, render, f1).reply
         == FetchContributions(fs, appData, username, now, response, render, f2).reply
  {
  }

  /** On a cache hit the reply does not depend on what the network would say. */
  lemma HitIgnoresNetwork(fs: FileSystem, appData: Result<Path, string>, username: string, now: int,
                          r1: HttpOutcome, r2: HttpOutcome, render: Json.Value -> string, fault: Option<string>)
    requires Load(fs, appData, username, now).Success?
    ensures FetchContributions(fs, appData, username, now, r1, render, fault)
         == FetchContributions(fs, appData, username, now, r2, render, fault)
  {
  }

  /** The command keeps every file's directories in place. */
  lemma FetchKeepsWellFormed(fs: FileSystem, appData: Result<Path, string>, username: string, now: int,
                             response: HttpOutcome, render: Json.Value -> string, fault: Option<string>)
    requires WellFormed(fs)
    ensures WellFormed(FetchContributions(fs, appData, username, now, response, render, fault).fs)
  {
  }

  /** Write-through pays off: after a live success whose save worked, calling
      again within 300 whole seconds serves the same days from the cache, with
      no network, whatever the network would now answer. */
  lemma WriteThroughThenHit(fs: FileSystem, appData: Result<Path, string>, username: string, now: int,
                            response: HttpOutcome, render: Json.Value -> string,
                            later: int, response2: HttpOutcome, fault2: Option<string>)
    requires appData.Success?
    requires Load(fs, appData, username, now).Failure? && FetchFromGitHub(response, render).Success?
    requires now <= later < now + (MaxAgeSecs + 1) * 1000
    ensures var first := FetchContributions(fs, appData, username, now, response, render, None);
      var second := FetchContributions(first.fs, appData, username, later, response2, render, fault2);
      && !second.networkUsed
      && second.reply == first.reply
      && second.fs == first.fs
  {
  }
}
