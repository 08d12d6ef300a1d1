/** The job list renderer: renders every release job of a deployment with the same job
    properties, global properties and deployment name, in order, and renders all of them or
    none: when one job fails, every job already rendered is deleted again. The job renderer
    is a parameter whose outcome is data. */
module JobListRenderer {
  import opened Common

  type Properties = map<string, string>

  /** A release job; only what identifies it is modelled. */
  datatype ReleaseJob = ReleaseJob(name: string, fingerprint: string)

  /** A job whose templates were rendered into a directory. */
  datatype RenderedJob = RenderedJob(job: ReleaseJob, path: string)

  /** The job renderer: a job with its job properties, global properties and deployment name. */
  type JobRenderer = (ReleaseJob, Properties, Properties, string) -> Result<RenderedJob>

  /** A call on the job renderer or on a rendered job. */
  datatype RendererCall =
    | Rendered(job: ReleaseJob, jobProperties: Properties, globalProperties: Properties, deploymentName: string)
    | DeletedSilently(rendered: RenderedJob)

  /** The index of the first job that does not render, or the number of jobs when all render. */
  function FirstFailure(jobs: seq<ReleaseJob>, jobProperties: Properties, globalProperties: Properties,
                        deploymentName: string, render: JobRenderer): (k: nat)
    ensures k <= |jobs|
    ensures forall i :: 0 <= i < k ==> render(jobs[i], jobProperties, globalProperties, deploymentName).Ok?
    ensures k < |jobs| ==> render(jobs[k], jobProperties, globalProperties, deploymentName).Err?
  {
    if jobs == [] || render(jobs[0], jobProperties, globalProperties, deploymentName).Err? then 0
    else 1 + FirstFailure(jobs[1..], jobProperties, globalProperties, deploymentName, render)
  }

  /** One render call per job, each with the same properties and deployment name. */
  function RenderCalls(jobs: seq<ReleaseJob>, jobProperties: Properties, globalProperties: Properties,
                       deploymentName: string): (r: seq<RendererCall>)
    ensures |r| == |jobs|
    ensures forall i :: 0 <= i < |jobs| ==> r[i] == Rendered(jobs[i], jobProperties, globalProperties, deploymentName)
  {
    if jobs == [] then []
    else [Rendered(jobs[0], jobProperties, globalProperties, deploymentName)]
         + RenderCalls(jobs[1..], jobProperties, globalProperties, deploymentName)
  }

  /** The rendered jobs, in the order of the jobs they come from. */
  function RenderedJobs(jobs: seq<ReleaseJob>, jobProperties: Properties, globalProperties: Properties,
                        deploymentName: string, render: JobRenderer): (r: seq<RenderedJob>)
    requires forall i :: 0 <= i < |jobs| ==> render(jobs[i], jobProperties, globalProperties, deploymentName).Ok?
    ensures |r| == |jobs|
    ensures forall i :: 0 <= i < |jobs| ==> r[i] == render(jobs[i], jobProperties, globalProperties, deploymentName).value
  {
    if jobs == [] then []
    else [render(jobs[0], jobProperties, globalProperties, deploymentName).value]
         + RenderedJobs(jobs[1..], jobProperties, globalProperties, deploymentName, render)
  }

  /** One silent deletion per rendered job, in the order they were rendered. */
  function Deletions(rendered: seq<RenderedJob>): (r: seq<RendererCall>)
    ensures |r| == |rendered|
    ensures forall i :: 0 <= i < |rendered| ==> r[i] == DeletedSilently(rendered[i])
  {
    if rendered == [] then [] else [DeletedSilently(rendered[0])] + Deletions(rendered[1..])
  }

  /** The error context of a job that does not render. */
  function RenderContext(job: ReleaseJob): string
  {
    "Rendering templates for job " + Quoted(job.name)
  }

  /** Deletes every rendered job, ignoring failures. */
  method DeleteSilently(rendered: seq<RenderedJob>) returns (calls: seq<RendererCall>)
    ensures calls == Deletions(rendered)
  {
    calls := [];
    var i := 0;
    while i < |rendered|
      invariant 0 <= i <= |rendered|
      invariant calls == Deletions(rendered[..i])
    {
      assert rendered[..i + 1] == rendered[..i] + [rendered[i]];
      DeletionsAppend(rendered[..i], rendered[i]);
      calls := calls + [DeletedSilently(rendered[i])];
      i := i + 1;
    }
    assert rendered[..i] == rendered;
  }

  lemma DeletionsAppend(rendered: seq<RenderedJob>, last: RenderedJob)
    ensures Deletions(rendered + [last]) == Deletions(rendered) + [DeletedSilently(last)]
  {
  }

  /** Renders the jobs in order; on the first failure, deletes the jobs already rendered and
      returns the failure with the job's name. */
  method Render(jobs: seq<ReleaseJob>, jobProperties: Properties, globalProperties: Properties,
                deploymentName: string, render: JobRenderer)
    returns (renderedJobs: seq<RenderedJob>, err: Option<string>, calls: seq<RendererCall>)
    ensures var k := FirstFailure(jobs, jobProperties, globalProperties, deploymentName, render);
      // all or nothing: the result is an error exactly when some job does not render
      && (err.None? <==> k == |jobs|)
      // on success, one rendered job per input job, in input order
      && (k == |jobs| ==>
            && renderedJobs == RenderedJobs(jobs, jobProperties, globalProperties, deploymentName, render)
            && calls == RenderCalls(jobs, jobProperties, globalProperties, deploymentName))
      // on failure, nothing after the failing job is rendered and every job before it is deleted
      && (k < |jobs| ==>
            && err == Some(Wrap(RenderContext(jobs[k]),
                                render(jobs[k], jobProperties, globalProperties, deploymentName).error))
            && renderedJobs == []
            && calls == RenderCalls(jobs[..k + 1], jobProperties, globalProperties, deploymentName)
                        + Deletions(RenderedJobs(jobs[..k], jobProperties, globalProperties, deploymentName, render)))
  {
    ghost var k := FirstFailure(jobs, jobProperties, globalProperties, deploymentName, render);
    var rendered: seq<RenderedJob> := [];
    calls := [];
    var i := 0;
    while i < |jobs|
      invariant 0 <= i <= k
      invariant rendered == RenderedJobs(jobs[..i], jobProperties, globalProperties, deploymentName, render)
      invariant calls == RenderCalls(jobs[..i], jobProperties, globalProperties, deploymentName)
    {
      var result := render(jobs[i], jobProperties, globalProperties, deploymentName);
      RenderCallsStep(jobs, i, jobProperties, globalProperties, deploymentName);
      calls := calls + [Rendered(jobs[i], jobProperties, globalProperties, deploymentName)];
      if result.Err? {
        assert i == k;
        var deletions := DeleteSilently(rendered);
        calls := calls + deletions;
        return [], Some(Wrap(RenderContext(jobs[i]), result.error)), calls;
      }
      RenderedJobsStep(jobs, i, jobProperties, globalProperties, deploymentName, render);
      rendered := rendered + [result.value];
      i := i + 1;
    }
    assert jobs[..i] == jobs;
    assert i == k;
    renderedJobs, err := rendered, None;
  }

  lemma RenderCallsStep(jobs: seq<ReleaseJob>, i: nat, jobProperties: Properties,
                        globalProperties: Properties, deploymentName: string)
    requires i < |jobs|
    ensures RenderCalls(jobs[..i + 1], jobProperties, globalProperties, deploymentName)
         == RenderCalls(jobs[..i], jobProperties, globalProperties, deploymentName)
            + [Rendered(jobs[i], jobProperties, globalProperties, deploymentName)]
  {
    assert jobs[..i + 1] == jobs[..i] + [jobs[i]];
  }

  lemma RenderedJobsStep(jobs: seq<ReleaseJob>, i: nat, jobProperties: Properties,
                         globalProperties: Properties, deploymentName: string, render: JobRenderer)
    requires i < |jobs|
    requires forall j :: 0 <= j <= i ==> render(jobs[j], jobProperties, globalProperties, deploymentName).Ok?
    ensures RenderedJobs(jobs[..i + 1], jobProperties, globalProperties, deploymentName, render)
         == RenderedJobs(jobs[..i], jobProperties, globalProperties, deploymentName, render)
            + [render(jobs[i], jobProperties, globalProperties, deploymentName).value]
  {
    assert jobs[..i + 1] == jobs[..i] + [jobs[i]];
  }

  /** Rendering is all or nothing: every job renders exactly when the first failure is past the end. */
  lemma AllRenderIffNoFailure(jobs: seq<ReleaseJob>, jobProperties: Properties,
                                                 globalProperties: Properties, deploymentName: string,
                                                 render: JobRenderer)
    ensures FirstFailure(jobs, jobProperties, globalProperties, deploymentName, render) == |jobs|
        <==> forall i :: 0 <= i < |jobs| ==> render(jobs[i], jobProperties, globalProperties, deploymentName).Ok?
  {
  }

  /** A render failure reaches the caller with the renderer's message in it. */
  lemma RenderErrorCarriesCause(job: ReleaseJob, cause: string)
    ensures Contains(Wrap(RenderContext(job), cause), cause)
    ensures StartsWith(Wrap(RenderContext(job), cause), "Rendering templates for job '" + job.name + "': ")
  {
    WrapContainsCause(RenderContext(job), cause);
    assert RenderContext(job) + ": " == "Rendering templates for job '" + job.name + "': ";
  }
}
