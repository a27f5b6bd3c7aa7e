/**
  `main` of the price-history script: the four catalogs of item names, the file
  name each fetched table is saved under, and the run over all of them that
  stops at the first item whose history cannot be fetched.
*/
module Orchestrator {
  import opened Wrappers
  import opened Sequences
  import opened Strings
  import opened Transport
  import opened DailyAggregation
  import opened Fetch

  /** `CURRENCY` (3, euro) and `COUNTRY`, the same for every request of the run. */
  const Currency: int := 3
  const Country: string := "DE"

  /** `ITEMS`: the CS2 items saved without a game prefix. */
  function Items(): seq<string> {
  [
    "AK-47 | Aquamarine Revenge (Field-Tested)",
    "AK-47 | Asiimov (Field-Tested)",
    "AK-47 | Bloodsport (Field-Tested)",
    "AK-47 | Fire Serpent (Field-Tested)",
    "AK-47 | Fuel Injector (Field-Tested)",
    "AK-47 | Gold Arabesque (Field-Tested)",
    "AK-47 | Jaguar (Field-Tested)",
    "AK-47 | Leet Museo (Field-Tested)",
    "AK-47 | Legion of Anubis (Field-Tested)",
    "AK-47 | Neon Revolution (Field-Tested)",
    "AK-47 | Neon Rider (Field-Tested)",
    "AK-47 | Nightwish (Field-Tested)",
    "AK-47 | Redline (Field-Tested)",
    "AK-47 | The Empress (Field-Tested)",
    "AK-47 | Vulcan (Field-Tested)",
    "AK-47 | Wasteland Rebel (Field-Tested)",
    "AK-47 | Wild Lotus (Field-Tested)",
    "AK-47 | X-Ray (Field-Tested)",
    "AUG | Akihabara Accept (Field-Tested)",
    "AUG | Chameleon (Field-Tested)",
    "AUG | Stymphalian (Field-Tested)",
    "AWP | Asiimov (Field-Tested)",
    "AWP | Atheris (Field-Tested)",
    "AWP | Chromatic Aberration (Field-Tested)",
    "AWP | Containment Breach (Field-Tested)",
    "AWP | Desert Hydra (Field-Tested)",
    "AWP | Dragon Lore (Field-Tested)",
    "AWP | Gungnir (Field-Tested)",
    "AWP | Hyper Beast (Field-Tested)",
    "AWP | Man-o'-war (Field-Tested)",
    "AWP | Medusa (Field-Tested)",
    "AWP | Neo-Noir (Field-Tested)",
    "AWP | Oni Taiji (Field-Tested)",
    "AWP | The Prince (Field-Tested)",
    "AWP | Wildfire (Field-Tested)",
    "CZ75-Auto | Crimson Web (Field-Tested)",
    "CZ75-Auto | Tigris (Field-Tested)",
    "CZ75-Auto | Victoria (Factory New)",
    "CZ75-Auto | Victoria (Field-Tested)",
    "Desert Eagle | Blaze (Factory New)",
    "Desert Eagle | Code Red (Field-Tested)",
    "Desert Eagle | Kumicho Dragon (Field-Tested)",
    "Desert Eagle | Midnight Storm (Field-Tested)",
    "Desert Eagle | Ocean Drive (Field-Tested)",
    "Desert Eagle | Printstream (Field-Tested)",
    "FAMAS | Afterimage (Field-Tested)",
    "FAMAS | Commemoration (Field-Tested)",
    "FAMAS | Mecha Industries (Field-Tested)",
    "FAMAS | Roll Cage (Field-Tested)",
    "Five-SeveN | Angry Mob (Field-Tested)",
    "Five-SeveN | Hyper Beast (Field-Tested)",
    "Galil AR | Chatterbox (Field-Tested)",
    "Glock-18 | Bullet Queen (Field-Tested)",
    "Glock-18 | Gamma Doppler (Field-Tested)",
    "Glock-18 | Neo-Noir (Field-Tested)",
    "Glock-18 | Wasteland Rebel (Field-Tested)",
    "Glock-18 | Water Elemental (Field-Tested)",
    "M4A1-S | Chantico's Fire (Field-Tested)",
    "M4A1-S | Cyrex (Field-Tested)",
    "M4A1-S | Golden Coil (Field-Tested)",
    "M4A1-S | Guardian (Field-Tested)",
    "M4A1-S | Hyper Beast (Field-Tested)",
    "M4A1-S | Imminent Danger (Field-Tested)",
    "M4A1-S | Mecha Industries (Field-Tested)",
    "M4A1-S | Player Two (Field-Tested)",
    "M4A1-S | Printstream (Field-Tested)",
    "M4A1-S | Welcome to the Jungle (Field-Tested)",
    "M4A4 | Asiimov (Field-Tested)",
    "M4A4 | Bullet Rain (Field-Tested)",
    "M4A4 | Buzz Kill (Field-Tested)",
    "M4A4 | Howl (Factory New)",
    "M4A4 | In Living Color (Field-Tested)",
    "M4A4 | Neo-Noir (Field-Tested)",
    "M4A4 | Royal Paladin (Field-Tested)",
    "M4A4 | The Battlestar (Field-Tested)",
    "M4A4 | The Coalition (Field-Tested)",
    "M4A4 | The Emperor (Field-Tested)",
    "M4A4 | X-Ray (Field-Tested)",
    "MAC-10 | Neon Rider (Field-Tested)",
    "MAC-10 | Stalker (Field-Tested)",
    "MP5-SD | Gauss (Field-Tested)",
    "MP5-SD | Kitbash (Field-Tested)",
    "MP5-SD | Phosphor (Field-Tested)",
    "MP7 | Bloodsport (Field-Tested)",
    "MP7 | Cirrus (Field-Tested)",
    "MP7 | Nemesis (Field-Tested)",
    "MP9 | Food Chain (Field-Tested)",
    "MP9 | Ruby Poison Dart (Field-Tested)",
    "MP9 | Stained Glass (Field-Tested)",
    "MP9 | Starlight Protector (Field-Tested)",
    "P2000 | Fire Elemental (Field-Tested)",
    "P250 | Sand Dune (Field-Tested)",
    "P250 | See Ya Later (Field-Tested)",
    "P90 | Asiimov (Field-Tested)",
    "P90 | Death by Kitty (Field-Tested)",
    "PP-Bizon | Fuel Rod (Field-Tested)",
    "PP-Bizon | Judgement of Anubis (Field-Tested)",
    "PP-Bizon | Osiris (Field-Tested)",
    "R8 Revolver | Bone Mask (Field-Tested)",
    "R8 Revolver | Fade (Field-Tested)",
    "R8 Revolver | Reboot (Field-Tested)",
    "Sawed-Off | The Kraken (Field-Tested)",
    "SG 553 | Colony IV (Field-Tested)",
    "SG 553 | Integrale (Field-Tested)",
    "SG 553 | Tiger Moth (Field-Tested)",
    "SSG 08 | Blood in the Water (Field-Tested)",
    "SSG 08 | Dragonfire (Field-Tested)",
    "Tec-9 | Avalanche (Field-Tested)",
    "Tec-9 | Fuel Injector (Field-Tested)",
    "Tec-9 | Nuclear Threat (Field-Tested)",
    "USP-S | Kill Confirmed (Field-Tested)",
    "USP-S | Neo-Noir (Field-Tested)",
    "USP-S | Printstream (Field-Tested)",
    "Kilowatt Case",
    "Revolution Case",
    "USP-S | The Traitor (Field-Tested)"
  ]
  }

  /** One of the four `for item in ...` loops of `main`: its app, its file prefix, its names. */
  datatype Catalog = Catalog(appid: int, prefix: string, items: seq<string>)

  /** The four name lists with their apps and prefixes, in the order `main` runs them. */
  function CatalogsOf(items: seq<string>, itemsCs: seq<string>, itemsDota: seq<string>, itemsTf2: seq<string>)
    : (r: seq<Catalog>)
    ensures |r| == 4 && forall c :: c in r ==> c.prefix in {"", "CS_", "Dota_", "TF2_"}
  {
    [Catalog(730, "", items), Catalog(730, "CS_", itemsCs), Catalog(570, "Dota_", itemsDota), Catalog(440, "TF2_", itemsTf2)]
  }

  /** `ITEMS`, `ITEMS_CS`, `ITEMS_DOTA` and `ITEMS_TF2`; the last three are empty. */
  function Catalogs(items: seq<string>): seq<Catalog> {
    CatalogsOf(items, [], [], [])
  }

  // ----- File names -----

  /** `item.replace(" ", "_").replace("|", "").replace("/", "-")`. */
  function SafeName(item: string): string {
    ReplaceChar(ReplaceChar(ReplaceChar(item, ' ', "_"), '|', ""), '/', "-")
  }

  /** No space, bar or slash survives, and every other character of the name does. */
  lemma SafeNameClean(item: string)
    ensures ' ' !in SafeName(item) && '|' !in SafeName(item) && '/' !in SafeName(item)
    ensures forall x :: x in item && x !in " |/" ==> x in SafeName(item)
  {
    var a := ReplaceChar(item, ' ', "_");
    var b := ReplaceChar(a, '|', "");
    ReplaceCharMembers(item, ' ', "_");
    ReplaceCharMembers(a, '|', "");
    ReplaceCharMembers(b, '/', "-");
  }

  /** Only the bars are dropped: spaces and slashes are replaced one for one. */
  lemma SafeNameLength(item: string)
    ensures |SafeName(item)| == |item| - Count(item, '|')
  {
    var a := ReplaceChar(item, ' ', "_");
    var b := ReplaceChar(a, '|', "");
    ReplaceCharLength(item, ' ', "_");
    ReplaceCharLength(a, '|', "");
    ReplaceCharLength(b, '/', "-");
    CountReplaceOther(item, ' ', "_", '|');
  }

  /** `os.path.join("data", f"{prefix}{safe_name}_history.csv")`. */
  function CsvPath(prefix: string, item: string): string {
    "data/" + prefix + SafeName(item) + "_history.csv"
  }

  /** With the four prefixes, every file lands directly in `data/`: its name has no `/`. */
  lemma CsvPathInDataDir(prefix: string, item: string)
    requires prefix in {"", "CS_", "Dota_", "TF2_"}
    ensures var p := CsvPath(prefix, item);
            && p[..5] == "data/"
            && '/' !in p[5..]
            && p[5..] == prefix + SafeName(item) + "_history.csv"
  {
    var p := CsvPath(prefix, item);
    SafeNameClean(item);
    assert p == "data/" + (prefix + SafeName(item) + "_history.csv");
  }

  // ----- The run -----

  /** One pass through the body of a catalog loop. */
  datatype Job = Job(appid: int, prefix: string, item: string)

  function CatalogJobs(c: Catalog): (r: seq<Job>)
    ensures |r| == |c.items|
    ensures forall i :: 0 <= i < |r| ==> r[i] == Job(c.appid, c.prefix, c.items[i])
  {
    seq(|c.items|, i requires 0 <= i < |c.items| => Job(c.appid, c.prefix, c.items[i]))
  }

  /** The jobs of the catalogs, one loop after the other. */
  function Jobs(cats: seq<Catalog>): seq<Job> {
    if cats == [] then [] else CatalogJobs(cats[0]) + Jobs(cats[1..])
  }

  /** `df.to_csv(csv_path)`: the table and the path it is written to. */
  datatype Saved = Saved(path: string, table: seq<DailyRow>)

  /** The item whose `fetch_pricehistory` raised, and what it raised; the run ends there. */
  datatype Abort = Abort(item: string, cause: FetchFailure)

  datatype RunTrace = RunTrace(saved: seq<Saved>, failure: Option<Abort>, sent: seq<Request>, pauses: seq<real>)

  /** What `fetch` does for `job` from request number `pos`. */
  function JobTrace(fetch: (nat, int, string) -> FetchTrace, pos: nat, job: Job): FetchTrace {
    fetch(pos, job.appid, job.item)
  }

  /**
    The run over `jobs[i..]` from request number `pos`, where `fetch(pos, appid, item)`
    is what `fetch_pricehistory` does from request number `pos`. Nothing catches
    the error of a failed fetch, so it ends the run.
  */
  function RunFrom(fetch: (nat, int, string) -> FetchTrace, pos: nat, jobs: seq<Job>, i: nat): RunTrace
    decreases |jobs| - i
  {
    if i >= |jobs| then RunTrace([], None, [], [])
    else
      var t := fetch(pos, jobs[i].appid, jobs[i].item);
      if t.result.Err? then RunTrace([], Some(Abort(jobs[i].item, t.result.error)), t.sent, t.pauses)
      else
        var rest := RunFrom(fetch, pos + |t.sent|, jobs, i + 1);
        RunTrace([Saved(CsvPath(jobs[i].prefix, jobs[i].item), t.result.value)] + rest.saved,
                 rest.failure, t.sent + rest.sent, t.pauses + rest.pauses)
  }

  /** `fetch_pricehistory` for one item of the run, with the run's currency and country. */
  function Fetcher(answers: nat -> Outcome, cred: Credentials, parseNumber: string -> Option<real>)
    : (nat, int, string) -> FetchTrace
  {
    (pos: nat, appid: int, item: string) =>
      FetchPriceHistorySpec(answers, pos, appid, Currency, Country, item, cred, parseNumber)
  }

  /** `main()` with `items` as `ITEMS`, from request number `start`. */
  function MainSpec(answers: nat -> Outcome, start: nat, cred: Credentials, parseNumber: string -> Option<real>,
                    items: seq<string>): RunTrace {
    RunFrom(Fetcher(answers, cred, parseNumber), start, Jobs(Catalogs(items)), 0)
  }

  // ----- What the run does -----

  /**
    The run goes through every job iff nothing failed, and otherwise it ends at
    the job right after the last saved one.
  */
  lemma {:induction false} RunStops(fetch: (nat, int, string) -> FetchTrace, pos: nat, jobs: seq<Job>, i: nat)
    requires i <= |jobs|
    ensures var r := RunFrom(fetch, pos, jobs, i);
            && |r.saved| <= |jobs| - i
            && (r.failure.None? <==> |r.saved| == |jobs| - i)
            && (r.failure.Some? ==> r.failure.value.item == jobs[i + |r.saved|].item)
    decreases |jobs| - i
  {
    if i < |jobs| {
      var t := fetch(pos, jobs[i].appid, jobs[i].item);
      if t.result.Ok? {
        RunStops(fetch, pos + |t.sent|, jobs, i + 1);
      }
    }
  }

  /** The files are saved in the order of the jobs, each under the path of its own item. */
  lemma {:induction false} RunPath(fetch: (nat, int, string) -> FetchTrace, pos: nat, jobs: seq<Job>, i: nat, k: nat)
    requires k < |RunFrom(fetch, pos, jobs, i).saved|
    ensures i + k < |jobs|
    ensures RunFrom(fetch, pos, jobs, i).saved[k].path == CsvPath(jobs[i + k].prefix, jobs[i + k].item)
    decreases k
  {
    var r := RunFrom(fetch, pos, jobs, i);
    var t := fetch(pos, jobs[i].appid, jobs[i].item);
    var rest := RunFrom(fetch, pos + |t.sent|, jobs, i + 1);
    assert r.saved == [Saved(CsvPath(jobs[i].prefix, jobs[i].item), t.result.value)] + rest.saved;
    if k == 0 {
      assert r.saved[k] == Saved(CsvPath(jobs[i].prefix, jobs[i].item), t.result.value);
    } else {
      assert r.saved[k] == rest.saved[k - 1];
      RunPath(fetch, pos + |t.sent|, jobs, i + 1, k - 1);
      assert jobs[i + 1 + (k - 1)] == jobs[i + k];
    }
  }

  /** Every saved table is one `fetch_pricehistory` returned, so it has one row per consecutive day. */
  lemma {:induction false} RunTables(fetch: (nat, int, string) -> FetchTrace, pos: nat, jobs: seq<Job>, i: nat)
    requires forall p: nat, a, it :: fetch(p, a, it).result.Ok? ==> DailyTable(fetch(p, a, it).result.value)
    ensures forall s :: s in RunFrom(fetch, pos, jobs, i).saved ==> DailyTable(s.table)
    decreases |jobs| - i
  {
    if i < |jobs| {
      var t := fetch(pos, jobs[i].appid, jobs[i].item);
      if t.result.Ok? {
        RunTables(fetch, pos + |t.sent|, jobs, i + 1);
      }
    }
  }

  lemma MulSucc(a: nat, n: nat)
    ensures a * (n + 1) == a * n + a && a <= a * (n + 1)
  {
  }

  /** Each fetch sends at most `bound` requests and sleeps once per request, so the run sends at most `bound` per job. */
  lemma {:induction false} RunRequests(fetch: (nat, int, string) -> FetchTrace, pos: nat, jobs: seq<Job>, i: nat, bound: nat)
    requires i <= |jobs|
    requires forall p: nat, a, it :: |fetch(p, a, it).sent| <= bound && |fetch(p, a, it).pauses| == |fetch(p, a, it).sent|
    ensures var r := RunFrom(fetch, pos, jobs, i);
            |r.sent| <= bound * (|jobs| - i) && |r.pauses| == |r.sent|
    decreases |jobs| - i
  {
    if i < |jobs| {
      var t := fetch(pos, jobs[i].appid, jobs[i].item);
      MulSucc(bound, |jobs| - i - 1);
      if t.result.Ok? {
        RunRequests(fetch, pos + |t.sent|, jobs, i + 1, bound);
      }
    }
  }

  /** Only `ITEMS` has names: the run is the items of `ITEMS`, for app 730, without a prefix. */
  lemma CatalogsJobs(items: seq<string>)
    ensures Jobs(Catalogs(items)) == CatalogJobs(Catalog(730, "", items))
  {
    var cats := Catalogs(items);
    assert cats[1..][1..][1..][1..] == [];
    assert Jobs(cats[1..][1..][1..]) == [];
    assert Jobs(cats[1..][1..]) == [];
    assert Jobs(cats[1..]) == [];
    assert CatalogJobs(cats[0]) + [] == CatalogJobs(cats[0]);
  }

  /** What the run relies on about each `fetch_pricehistory`: at most 9 requests, one pause each, a daily table. */
  lemma FetcherBounds(answers: nat -> Outcome, cred: Credentials, parseNumber: string -> Option<real>)
    ensures var fetch := Fetcher(answers, cred, parseNumber);
            forall p: nat, a, it ::
              && |fetch(p, a, it).sent| <= 9 && |fetch(p, a, it).pauses| == |fetch(p, a, it).sent|
              && (fetch(p, a, it).result.Ok? ==> DailyTable(fetch(p, a, it).result.value))
  {
    forall p: nat, a, it {
      FetchPriceHistoryBounds(answers, p, a, Currency, Country, it, cred, parseNumber);
    }
  }

  /** The run over the catalogs built from `items`, for any `fetch` with those bounds. */
  lemma ItemsRun(fetch: (nat, int, string) -> FetchTrace, start: nat, items: seq<string>)
    requires forall p: nat, a, it ::
               && |fetch(p, a, it).sent| <= 9 && |fetch(p, a, it).pauses| == |fetch(p, a, it).sent|
               && (fetch(p, a, it).result.Ok? ==> DailyTable(fetch(p, a, it).result.value))
    ensures var r := RunFrom(fetch, start, Jobs(Catalogs(items)), 0);
            && |r.saved| <= |items|
            && (forall i :: 0 <= i < |r.saved| ==> r.saved[i].path == "data/" + SafeName(items[i]) + "_history.csv")
            && (forall s :: s in r.saved ==> DailyTable(s.table))
            && (r.failure.None? <==> |r.saved| == |items|)
            && (r.failure.Some? ==> r.failure.value.item == items[|r.saved|])
            && |r.sent| <= 9 * |items|
  {
    ItemsJobs(items);
    var jobs := Jobs(Catalogs(items));
    RunStops(fetch, start, jobs, 0);
    RunTables(fetch, start, jobs, 0);
    RunRequests(fetch, start, jobs, 0, 9);
    ItemsPaths(fetch, start, items);
  }

  /** The jobs of the run over the catalogs built from `items`: one per item, for app 730, without a prefix. */
  lemma ItemsJobs(items: seq<string>)
    ensures var jobs := Jobs(Catalogs(items));
            |jobs| == |items| && forall i :: 0 <= i < |jobs| ==> jobs[i] == Job(730, "", items[i])
  {
    CatalogsJobs(items);
  }

  /** Each file the run over `items` saves is named after the item of its position. */
  lemma ItemsPaths(fetch: (nat, int, string) -> FetchTrace, start: nat, items: seq<string>)
    ensures var r := RunFrom(fetch, start, Jobs(Catalogs(items)), 0);
            && |r.saved| <= |items|
            && forall i :: 0 <= i < |r.saved| ==> r.saved[i].path == "data/" + SafeName(items[i]) + "_history.csv"
  {
    ItemsJobs(items);
    var jobs := Jobs(Catalogs(items));
    RunStops(fetch, start, jobs, 0);
    var r := RunFrom(fetch, start, jobs, 0);
    forall i | 0 <= i < |r.saved|
      ensures r.saved[i].path == "data/" + SafeName(items[i]) + "_history.csv"
    {
      RunPath(fetch, start, jobs, 0, i);
      assert jobs[i] == Job(730, "", items[i]);
      NoPrefixPath(items[i]);
    }
  }

  lemma NoPrefixPath(item: string)
    ensures CsvPath("", item) == "data/" + SafeName(item) + "_history.csv"
  {
    assert "data/" + "" == "data/";
  }

  /**
    `main()`: every saved file is `data/<safe name>_history.csv` of the matching
    name of `ITEMS`, in list order, with a daily table; all of them are saved iff
    no fetch failed; at most 9 requests go out per item.
  */
  lemma MainFacts(answers: nat -> Outcome, start: nat, cred: Credentials, parseNumber: string -> Option<real>,
                  items: seq<string>)
    ensures var r := MainSpec(answers, start, cred, parseNumber, items);
            && |r.saved| <= |items|
            && (forall i :: 0 <= i < |r.saved| ==> r.saved[i].path == "data/" + SafeName(items[i]) + "_history.csv")
            && (forall s :: s in r.saved ==> DailyTable(s.table))
            && (r.failure.None? <==> |r.saved| == |items|)
            && (r.failure.Some? ==> r.failure.value.item == items[|r.saved|])
            && |r.sent| <= 9 * |items|
  {
    FetcherBounds(answers, cred, parseNumber);
    ItemsRun(Fetcher(answers, cred, parseNumber), start, items);
  }

  // ----- `main` as the source writes it -----

  /** The view of `fetch_pricehistory` that the loop of `main` is proved against. */
  ghost predicate FetcherAgrees(fetch: (nat, int, string) -> FetchTrace, answers: nat -> Outcome, cred: Credentials,
                                parseNumber: string -> Option<real>)
  {
    forall p: nat, a, it {:trigger FetchPriceHistorySpec(answers, p, a, Currency, Country, it, cred, parseNumber)} ::
      fetch(p, a, it) == FetchPriceHistorySpec(answers, p, a, Currency, Country, it, cred, parseNumber)
  }

  lemma FetcherIsFetch(answers: nat -> Outcome, cred: Credentials, parseNumber: string -> Option<real>)
    ensures FetcherAgrees(Fetcher(answers, cred, parseNumber), answers, cred, parseNumber)
  {
  }

  /** The first job of a run that fetched its history. */
  lemma RunFromStep(fetch: (nat, int, string) -> FetchTrace, pos: nat, jobs: seq<Job>, i: nat)
    requires i < |jobs| && fetch(pos, jobs[i].appid, jobs[i].item).result.Ok?
    ensures var x := fetch(pos, jobs[i].appid, jobs[i].item);
            var t, rest := RunFrom(fetch, pos, jobs, i), RunFrom(fetch, pos + |x.sent|, jobs, i + 1);
            && t.saved == [Saved(CsvPath(jobs[i].prefix, jobs[i].item), x.result.value)] + rest.saved
            && t.failure == rest.failure && t.sent == x.sent + rest.sent && t.pauses == x.pauses + rest.pauses
  {
  }

  /** The first job of a run whose fetch failed. */
  lemma RunFromAbort(fetch: (nat, int, string) -> FetchTrace, pos: nat, jobs: seq<Job>, i: nat)
    requires i < |jobs| && fetch(pos, jobs[i].appid, jobs[i].item).result.Err?
    ensures var x := fetch(pos, jobs[i].appid, jobs[i].item);
            RunFrom(fetch, pos, jobs, i) == RunTrace([], Some(Abort(jobs[i].item, x.result.error)), x.sent, x.pauses)
  {
  }

  /** One call of `fetch_pricehistory` with the run's currency and country, seen through `fetch`. */
  method FetchJob(c: Client, job: Job, cred: Credentials, parseNumber: string -> Option<real>,
                  ghost fetch: (nat, int, string) -> FetchTrace)
    returns (r: Result<seq<DailyRow>, FetchFailure>)
    requires FetcherAgrees(fetch, c.answers, cred, parseNumber)
    modifies c
    ensures var t := JobTrace(fetch, |old(c.sent)|, job);
            && r == t.result && c.sent == old(c.sent) + t.sent && c.slept == old(c.slept) + t.pauses
  {
    r := FetchPriceHistory(c, job.appid, Currency, Country, job.item, cred, parseNumber);
  }

  /**
    One pass of the catalog loops' body for `jobs[i]`: its fetch, and what is left
    of the run after it. The caller saves the table under the item's path.
  */
  method SaveJob(c: Client, jobs: seq<Job>, i: nat, cred: Credentials, parseNumber: string -> Option<real>,
                 ghost fetch: (nat, int, string) -> FetchTrace)
    returns (r: Result<seq<DailyRow>, FetchFailure>)
    requires i < |jobs| && FetcherAgrees(fetch, c.answers, cred, parseNumber)
    modifies c
    ensures var t := RunFrom(fetch, |old(c.sent)|, jobs, i);
            r.Err? ==> && t.saved == [] && t.failure == Some(Abort(jobs[i].item, r.error))
                       && c.sent == old(c.sent) + t.sent && c.slept == old(c.slept) + t.pauses
    ensures var t, rest := RunFrom(fetch, |old(c.sent)|, jobs, i), RunFrom(fetch, |c.sent|, jobs, i + 1);
            r.Ok? ==> && t.saved == [Saved(CsvPath(jobs[i].prefix, jobs[i].item), r.value)] + rest.saved
                      && t.failure == rest.failure
                      && old(c.sent) + t.sent == c.sent + rest.sent
                      && old(c.slept) + t.pauses == c.slept + rest.pauses
  {
    r := FetchJob(c, jobs[i], cred, parseNumber, fetch);
    JobEffect(fetch, jobs, i, old(c.sent), old(c.slept), r, c.sent, c.slept);
  }

  /** How one fetch of `jobs[i]`, from the requests and pauses `sent0` and `slept0`, fits into the run. */
  lemma JobEffect(fetch: (nat, int, string) -> FetchTrace, jobs: seq<Job>, i: nat,
                  sent0: seq<Request>, slept0: seq<real>, r: Result<seq<DailyRow>, FetchFailure>,
                  sent1: seq<Request>, slept1: seq<real>)
    requires i < |jobs|
    requires var t := JobTrace(fetch, |sent0|, jobs[i]);
             r == t.result && sent1 == sent0 + t.sent && slept1 == slept0 + t.pauses
    ensures var t := RunFrom(fetch, |sent0|, jobs, i);
            r.Err? ==> && t.saved == [] && t.failure == Some(Abort(jobs[i].item, r.error))
                       && sent1 == sent0 + t.sent && slept1 == slept0 + t.pauses
    ensures var t, rest := RunFrom(fetch, |sent0|, jobs, i), RunFrom(fetch, |sent1|, jobs, i + 1);
            r.Ok? ==> && t.saved == [Saved(CsvPath(jobs[i].prefix, jobs[i].item), r.value)] + rest.saved
                      && t.failure == rest.failure
                      && sent0 + t.sent == sent1 + rest.sent
                      && slept0 + t.pauses == slept1 + rest.pauses
  {
    var pos := |sent0|;
    var x := fetch(pos, jobs[i].appid, jobs[i].item);
    if r.Err? {
      RunFromAbort(fetch, pos, jobs, i);
    } else {
      RunFromStep(fetch, pos, jobs, i);
      var rest := RunFrom(fetch, pos + |x.sent|, jobs, i + 1);
      AppendAssociative(sent0, x.sent, rest.sent);
      AppendAssociative(slept0, x.pauses, rest.pauses);
    }
  }

  /**
    The body of the catalog loops over `jobs`: fetch the history, save it under
    the item's path, and let the error of a failed fetch end the run.
  */
  method SaveJobs(c: Client, jobs: seq<Job>, cred: Credentials, parseNumber: string -> Option<real>,
                  ghost fetch: (nat, int, string) -> FetchTrace)
    returns (saved: seq<Saved>, failure: Option<Abort>)
    requires FetcherAgrees(fetch, c.answers, cred, parseNumber)
    modifies c
    ensures var t := RunFrom(fetch, |old(c.sent)|, jobs, 0);
            && saved == t.saved && failure == t.failure
            && c.sent == old(c.sent) + t.sent && c.slept == old(c.slept) + t.pauses
  {
    ghost var whole := RunFrom(fetch, |c.sent|, jobs, 0);
    saved := [];
    var i := 0;
    while i < |jobs|
      invariant 0 <= i <= |jobs|
      invariant var t := RunFrom(fetch, |c.sent|, jobs, i);
                && whole.saved == saved + t.saved && whole.failure == t.failure
                && old(c.sent) + whole.sent == c.sent + t.sent
                && old(c.slept) + whole.pauses == c.slept + t.pauses
    {
      ghost var t := RunFrom(fetch, |c.sent|, jobs, i);
      var r := SaveJob(c, jobs, i, cred, parseNumber, fetch);
      if r.Err? {
        assert saved + [] == saved;
        return saved, Some(Abort(jobs[i].item, r.error));
      }
      var path := CsvPath(jobs[i].prefix, jobs[i].item);
      AppendAssociative(saved, [Saved(path, r.value)], RunFrom(fetch, |c.sent|, jobs, i + 1).saved);
      saved := saved + [Saved(path, r.value)];
      i := i + 1;
    }
    assert saved + [] == saved && c.sent + [] == c.sent && c.slept + [] == c.slept;
    return saved, None;
  }

  /**
    `main()` with `items` as `ITEMS` (which is `Items()`): the four catalog loops
    one after the other over one session, which end the run at the first item
    whose history cannot be fetched.
  */
  method SaveAllHistories(c: Client, items: seq<string>, cred: Credentials, parseNumber: string -> Option<real>)
    returns (saved: seq<Saved>, failure: Option<Abort>)
    modifies c
    ensures var t := MainSpec(c.answers, |old(c.sent)|, cred, parseNumber, items);
            && saved == t.saved && failure == t.failure
            && c.sent == old(c.sent) + t.sent && c.slept == old(c.slept) + t.pauses
  {
    FetcherIsFetch(c.answers, cred, parseNumber);
    saved, failure := SaveJobs(c, Jobs(Catalogs(items)), cred, parseNumber, Fetcher(c.answers, cred, parseNumber));
  }
}
