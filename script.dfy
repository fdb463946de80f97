/** The top level of generate_chart.py: fetch, then render and upload only
    when the candle table is non-empty, otherwise print a skip notice. What the
    script does is recorded as the list of steps it takes, in order. */
module Script {
  import Fetch
  import Publish

  /** The default file name of `generate_chart`, which it also returns. */
  const CHART_FILE: string := "dot_chart.png"

  datatype Step =
    | SkipNotice
    | Render(filename: string, table: seq<Fetch.Candle>)
    | Upload(filename: string, repoPath: string, result: Publish.UploadResult)

  predicate Renders(steps: seq<Step>) {
    exists i :: 0 <= i < |steps| && steps[i].Render?
  }

  predicate Uploads(steps: seq<Step>) {
    exists i :: 0 <= i < |steps| && steps[i].Upload?
  }

  /** Lines 81-85. `content` stands for the base64 text of the rendered file
      and `message` for the time-stamped commit message; `get` and `put` are
      the replies of the two GitHub requests. */
  function Gate(table: seq<Fetch.Candle>, content: string, message: string,
                get: Publish.Response, put: Publish.Response): (steps: seq<Step>)
    ensures Renders(steps) <==> table != []
    ensures Uploads(steps) <==> table != []
    ensures table == [] ==> steps == [SkipNotice]
    ensures table != [] ==>
      && |steps| == 2
      && steps[0] == Render(CHART_FILE, table)
      && steps[1].Upload?
      && steps[1].filename == steps[0].filename
      && steps[1].repoPath == Publish.DEFAULT_REPO_PATH
      && steps[1].result == Publish.UploadChart(content, message, get, put)
  {
    if table == [] then [SkipNotice]
    else
      var filename := CHART_FILE;
      var steps := [Render(filename, table),
                    Upload(filename, Publish.DEFAULT_REPO_PATH, Publish.UploadChart(content, message, get, put))];
      assert steps[0].Render? && steps[1].Upload?;
      steps
  }

  /** One run of the script, from the market-data reply to the last step:
      it renders and uploads exactly when the fetch succeeded with at least
      two samples; a failed fetch, zero samples and one sample all end in the
      skip notice alone, without raising. */
  function Run(fetch: Fetch.Reply, content: string, message: string,
               get: Publish.Response, put: Publish.Response): (steps: seq<Step>)
    ensures Renders(steps) <==> fetch.Ok? && |fetch.value| >= 2
    ensures Uploads(steps) <==> fetch.Ok? && |fetch.value| >= 2
    ensures !(fetch.Ok? && |fetch.value| >= 2) ==> steps == [SkipNotice]
  {
    Fetch.EmptyIffFailedOrShort(fetch);
    Gate(Fetch.FetchDotData(fetch), content, message, get, put)
  }

  /** A single sample forms no candle, so the run skips softly. */
  lemma OneSampleSkips(sample: Fetch.Sample, content: string, message: string,
                       get: Publish.Response, put: Publish.Response)
    ensures Run(Fetch.Reply.Ok([sample]), content, message, get, put) == [SkipNotice]
  {
  }

  /** A fetch that yields no samples: no chart file is produced and nothing is written remotely. */
  lemma NoSamplesNoWrite(content: string, message: string, get: Publish.Response, put: Publish.Response)
    ensures Run(Fetch.Reply.Ok([]), content, message, get, put) == [SkipNotice]
  {
  }
}
