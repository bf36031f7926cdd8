/**
 * The console's organization pages: the redirect straight to an
 * organization's projects when the list holds a single organization, and the
 * URLs and paths the list and view pages build.
 */
module Organizations {
  import opened Wrappers

  /** A listed organization; its `slug` may be missing. */
  datatype Datum = Datum(slug: Option<string>)

  /** The route parameters of a view page. */
  datatype PathParams = PathParams(organization_slug: Option<string>)

  const PROJECTS_PREFIX: string := "/console/organizations/"
  const PROJECTS_SUFFIX: string := "/projects"

  /** A value as a template literal writes it: a missing one becomes "undefined". */
  function Interpolate(value: Option<string>): (r: string)
    ensures value.Some? ==> r == value.value
    ensures value.None? ==> r == "undefined"
  {
    match value
    case Some(s) => s
    case None => "undefined"
  }

  /** The slug behind `row?.slug`, missing when the row or its slug is. */
  function RowSlug(row: Option<Datum>): Option<string>
  {
    match row
    case Some(datum) => datum.slug
    case None => None
  }

  /** The slug behind `path_params?.organization_slug`. */
  function ParamSlug(params: Option<PathParams>): Option<string>
  {
    match params
    case Some(p) => p.organization_slug
    case None => None
  }

  /** The projects page of an organization. */
  function ProjectsPath(slug: Option<string>): string
  {
    PROJECTS_PREFIX + Interpolate(slug) + PROJECTS_SUFFIX
  }

  /** The list page's `redirect`: only a table of exactly one row leads straight to that organization's projects. */
  function Redirect(tableData: Option<seq<Option<Datum>>>): (r: Option<string>)
    ensures r.Some? <==> tableData.Some? && |tableData.value| == 1
    ensures r.Some? ==> r.value == ProjectsPath(RowSlug(tableData.value[0]))
  {
    match tableData
    case Some(rows) => if |rows| == 1 then Some(ProjectsPath(RowSlug(rows[0]))) else None
    case None => None
  }

  /** The list table's `url`; the path parameters are ignored. */
  function TableUrl(apiUrl: string, params: Option<PathParams>): (r: string)
    ensures |apiUrl| < |r| && r[..|apiUrl|] == apiUrl
  {
    apiUrl + "/v0/organizations"
  }

  /** The row button's `path`: the organization's view page followed by "/projects". */
  function RowButtonPath(viewSlugPath: (string, Datum) -> string, pathname: string, datum: Datum): (r: string)
    ensures |r| >= |PROJECTS_SUFFIX| && r[|r| - |PROJECTS_SUFFIX|..] == PROJECTS_SUFFIX
    ensures r[..|r| - |PROJECTS_SUFFIX|] == viewSlugPath(pathname, datum)
  {
    viewSlugPath(pathname, datum) + PROJECTS_SUFFIX
  }

  /** The view deck's `url`: the organization under the API's organization list. */
  function DeckUrl(apiUrl: string, params: Option<PathParams>): (r: string)
    ensures |apiUrl| < |r| && r[..|apiUrl|] == apiUrl
    ensures var slug := Interpolate(ParamSlug(params)); |slug| < |r| && r[|r| - |slug| - 1..] == "/" + slug
  {
    apiUrl + "/v0/organizations/" + Interpolate(ParamSlug(params))
  }

  /** The view deck button's `path`. */
  function DeckButtonPath(params: Option<PathParams>): (r: string)
    ensures SlugOfProjectsPath(r) == Some(Interpolate(ParamSlug(params)))
  {
    ProjectsPathRoundTrip(Interpolate(ParamSlug(params)));
    PROJECTS_PREFIX + Interpolate(ParamSlug(params)) + PROJECTS_SUFFIX
  }

  /** Reads the slug back out of a projects page path. */
  function SlugOfProjectsPath(path: string): (r: Option<string>)
    ensures r.Some? ==> path == PROJECTS_PREFIX + r.value + PROJECTS_SUFFIX
  {
    if |path| >= |PROJECTS_PREFIX| + |PROJECTS_SUFFIX|
       && path[..|PROJECTS_PREFIX|] == PROJECTS_PREFIX
       && path[|path| - |PROJECTS_SUFFIX|..] == PROJECTS_SUFFIX
    then
      var slug := path[|PROJECTS_PREFIX|..|path| - |PROJECTS_SUFFIX|];
      assert path == path[..|PROJECTS_PREFIX|] + slug + path[|path| - |PROJECTS_SUFFIX|..];
      Some(slug)
    else None
  }

  /** The slug is read back from the projects path of any present slug, so distinct slugs lead to distinct pages. */
  lemma ProjectsPathRoundTrip(slug: string)
    ensures SlugOfProjectsPath(ProjectsPath(Some(slug))) == Some(slug)
  {
    var path := ProjectsPath(Some(slug));
    assert path[..|PROJECTS_PREFIX|] == PROJECTS_PREFIX;
    assert path[|path| - |PROJECTS_SUFFIX|..] == PROJECTS_SUFFIX;
    assert path[|PROJECTS_PREFIX|..|path| - |PROJECTS_SUFFIX|] == slug;
  }

  /** No redirect for a missing table, an empty one, or one of two or more rows. */
  lemma NoRedirectUnlessSingle(tableData: Option<seq<Option<Datum>>>)
    requires tableData.None? || |tableData.value| != 1
    ensures Redirect(tableData).None?
  {
  }

  /** A single row whose slug is missing redirects to the page of an organization called "undefined". */
  lemma MissingSlugRedirect()
    ensures Redirect(Some([Some(Datum(None))])) == Some("/console/organizations/undefined/projects")
    ensures Redirect(Some([None])) == Some("/console/organizations/undefined/projects")
  {
    assert ProjectsPath(None) == "/console/organizations/undefined/projects";
  }

  /** The table URL is the API's organization list, whatever the route. */
  lemma TableUrlIgnoresRoute(apiUrl: string, params: Option<PathParams>, other: Option<PathParams>)
    ensures TableUrl(apiUrl, params) == TableUrl(apiUrl, other) == apiUrl + "/v0/organizations"
  {
  }

  /** The deck URL is the table URL followed by the organization's slug. */
  lemma DeckUrlExtendsTableUrl(apiUrl: string, params: Option<PathParams>)
    ensures DeckUrl(apiUrl, params) == TableUrl(apiUrl, params) + "/" + Interpolate(ParamSlug(params))
  {
  }

  /** The view's button leads where the list's single-row redirect leads for the same slug. */
  lemma DeckButtonIsRedirect(params: Option<PathParams>, datum: Datum)
    requires datum.slug == ParamSlug(params)
    ensures Redirect(Some([Some(datum)])) == Some(DeckButtonPath(params))
  {
  }
}
