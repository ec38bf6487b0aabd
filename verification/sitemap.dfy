/**
 * The `/sitemap.xml` route: a fixed home and listing page followed by one `<url>` entry per
 * listed property with a slug. The fetch of the rows is an input (`None` when it threw).
 */
module Sitemap {
  import opened Wrappers
  import Seqs
  import Text

  /** A row as the sitemap reads it: it indexes the raw record, so every field may be missing. */
  datatype SitemapRow = SitemapRow(slug: Option<string>, updatedAt: Option<string>, createdAt: Option<string>)

  datatype Response = Response(status: int, body: string)

  const DefaultSiteUrl := "http://localhost:3000"
  const XmlDeclaration := "<?xml version=\"1.0\" encoding=\"UTF-8\"?>"
  const UrlsetOpen := "<urlset xmlns=\"http://www.sitemaps.org/schemas/sitemap/0.9\">"
  const UrlsetClose := "</urlset>"

  /** `NEXT_PUBLIC_SITE_URL`, or the local default when it is unset or empty. */
  function SiteUrl(configured: Option<string>): (r: string)
    ensures Truthy(configured) ==> r == configured.value
    ensures !Truthy(configured) ==> r == DefaultSiteUrl
  {
    if configured.Some? && configured.value != "" then configured.value else DefaultSiteUrl
  }

  const UrlOpenLine := "  <url>"
  const UrlCloseLine := "  </url>"

  function LocLine(url: string): string
  {
    "    <loc>" + url + "</loc>"
  }

  function LastmodLine(lastmod: string): string
  {
    "    <lastmod>" + lastmod + "</lastmod>"
  }

  /** One `<url>` element: an opening line, the `<loc>` line, an optional `<lastmod>` line and a closing line. */
  function BuildUrl(site: string, loc: string, lastmod: Option<string>): string
  {
    UrlOpenLine + "\n" + LocLine(site + loc)
      + (if lastmod.Some? && lastmod.value != "" then "\n" + LastmodLine(lastmod.value) else "")
      + "\n" + UrlCloseLine
  }

  predicate NoNewline(s: string)
  {
    '\n' !in s
  }

  /** The lines of an entry, one element per line. */
  function UrlLines(site: string, loc: string, lastmod: Option<string>): seq<string>
  {
    [UrlOpenLine, LocLine(site + loc)]
      + (if Truthy(lastmod) then [LastmodLine(lastmod.value)] else [])
      + [UrlCloseLine]
  }

  /** Joining two lines and then further lines. */
  lemma JoinAfterTwo(first: string, second: string, tail: seq<string>)
    requires tail != []
    ensures Text.Join([first, second] + tail, "\n") == first + "\n" + second + "\n" + Text.Join(tail, "\n")
  {
    assert Text.Join([first, second], "\n") == first + "\n" + second;
    Text.JoinConcat([first, second], tail, "\n");
  }

  lemma UrlLinesJoin(site: string, loc: string, lastmod: Option<string>)
    ensures Text.Join(UrlLines(site, loc, lastmod), "\n") == BuildUrl(site, loc, lastmod)
  {
    if Truthy(lastmod) {
      var tail := [LastmodLine(lastmod.value), UrlCloseLine];
      assert UrlLines(site, loc, lastmod) == [UrlOpenLine, LocLine(site + loc)] + tail;
      assert Text.Join(tail, "\n") == LastmodLine(lastmod.value) + "\n" + UrlCloseLine;
      JoinAfterTwo(UrlOpenLine, LocLine(site + loc), tail);
    } else {
      assert UrlLines(site, loc, lastmod) == [UrlOpenLine, LocLine(site + loc)] + [UrlCloseLine];
      JoinAfterTwo(UrlOpenLine, LocLine(site + loc), [UrlCloseLine]);
    }
  }

  lemma UrlLinesFree(site: string, loc: string, lastmod: Option<string>)
    requires NoNewline(site) && NoNewline(loc)
    requires lastmod.Some? ==> NoNewline(lastmod.value)
    ensures forall i :: 0 <= i < |UrlLines(site, loc, lastmod)| ==> '\n' !in UrlLines(site, loc, lastmod)[i]
  {
    assert NoNewline(UrlOpenLine) && NoNewline("    <loc>") && NoNewline("</loc>") && NoNewline(UrlCloseLine);
    assert NoNewline("    <lastmod>") && NoNewline("</lastmod>");
  }

  /**
   * Without a non-empty `lastmod` an entry is exactly three lines with only `<loc>`; with one, a fourth
   * line carrying it follows `<loc>`.
   */
  lemma BuildUrlLines(site: string, loc: string, lastmod: Option<string>)
    requires NoNewline(site) && NoNewline(loc)
    requires lastmod.Some? ==> NoNewline(lastmod.value)
    ensures Text.Split(BuildUrl(site, loc, lastmod), '\n') == UrlLines(site, loc, lastmod)
    ensures |UrlLines(site, loc, lastmod)| == if Truthy(lastmod) then 4 else 3
  {
    UrlLinesJoin(site, loc, lastmod);
    UrlLinesFree(site, loc, lastmod);
    Text.SplitJoinParts(UrlLines(site, loc, lastmod), '\n');
  }

  /** `p.updated_at || p.created_at`: the update time when it is non-empty, otherwise the creation time. */
  function Lastmod(row: SitemapRow): (r: Option<string>)
    ensures Truthy(r) <==> Truthy(row.updatedAt) || Truthy(row.createdAt)
    ensures Truthy(row.updatedAt) ==> r == row.updatedAt
    ensures !Truthy(row.updatedAt) ==> r == row.createdAt
  {
    if row.updatedAt.Some? && row.updatedAt.value != "" then row.updatedAt else row.createdAt
  }

  predicate HasSlug(row: SitemapRow)
  {
    row.slug.Some? && row.slug.value != ""
  }

  function PropertyUrl(site: string, row: SitemapRow): string
    requires HasSlug(row)
  {
    BuildUrl(site, "/properties/" + row.slug.value, Lastmod(row))
  }

  /** The property entries: rows without a slug are skipped, the rest keep their order. */
  function Entries(site: string, rows: seq<SitemapRow>): (r: seq<string>)
    ensures |r| <= |rows|
    decreases |rows|
  {
    if rows == [] then []
    else if HasSlug(rows[0]) then [PropertyUrl(site, rows[0])] + Entries(site, rows[1..])
    else Entries(site, rows[1..])
  }

  /** The property entries are, position by position, the entries of the rows that have a slug. */
  lemma {:induction false} EntriesFollowSluggedRows(site: string, rows: seq<SitemapRow>)
    ensures var slugged := Seqs.Filter(HasSlug, rows);
      && |Entries(site, rows)| == |slugged|
      && forall i :: 0 <= i < |slugged| ==> Entries(site, rows)[i] == PropertyUrl(site, slugged[i])
    decreases |rows|
  {
    if rows != [] {
      EntriesFollowSluggedRows(site, rows[1..]);
      assert rows == [rows[0]] + rows[1..];
      Seqs.FilterCons(HasSlug, rows[0], rows[1..]);
      if HasSlug(rows[0]) {
        SluggedStep(site, rows);
      }
    }
  }

  lemma SluggedStep(site: string, rows: seq<SitemapRow>)
    requires rows != [] && HasSlug(rows[0])
    requires Seqs.Filter(HasSlug, rows) == [rows[0]] + Seqs.Filter(HasSlug, rows[1..])
    requires var slugged := Seqs.Filter(HasSlug, rows[1..]);
      && |Entries(site, rows[1..])| == |slugged|
      && forall i :: 0 <= i < |slugged| ==> Entries(site, rows[1..])[i] == PropertyUrl(site, slugged[i])
    ensures var slugged := Seqs.Filter(HasSlug, rows);
      forall i :: 0 <= i < |slugged| ==> Entries(site, rows)[i] == PropertyUrl(site, slugged[i])
  {
    var slugged := Seqs.Filter(HasSlug, rows);
    forall i | 0 <= i < |slugged| ensures Entries(site, rows)[i] == PropertyUrl(site, slugged[i]) {
      if i > 0 {
        assert slugged[i] == Seqs.Filter(HasSlug, rows[1..])[i - 1];
      }
    }
  }

  function Urls(site: string, rows: seq<SitemapRow>): (r: seq<string>)
    ensures |r| >= 2 && r[0] == BuildUrl(site, "/", None) && r[1] == BuildUrl(site, "/properties", None)
    ensures r[2..] == Entries(site, rows)
  {
    [BuildUrl(site, "/", None), BuildUrl(site, "/properties", None)] + Entries(site, rows)
  }

  /** The document: the declaration, the urlset opening tag, the entries one per line, the closing tag. */
  function Document(site: string, rows: seq<SitemapRow>): string
  {
    XmlDeclaration + "\n" + UrlsetOpen + "\n" + Text.Join(Urls(site, rows), "\n") + "\n" + UrlsetClose
  }

  /** The document is its header, its two fixed entries, one entry per slugged row and the closing tag, joined by newlines. */
  lemma DocumentLayout(site: string, rows: seq<SitemapRow>)
    ensures Document(site, rows) == Text.Join([XmlDeclaration, UrlsetOpen] + Urls(site, rows) + [UrlsetClose], "\n")
    ensures |Urls(site, rows)| == 2 + |Seqs.Filter(HasSlug, rows)|
  {
    var urls := Urls(site, rows);
    Text.JoinConcat([XmlDeclaration, UrlsetOpen], urls, "\n");
    Text.JoinConcat([XmlDeclaration, UrlsetOpen] + urls, [UrlsetClose], "\n");
    EntriesFollowSluggedRows(site, rows);
  }

  /** GET: 200 with the document, or 500 with an empty body when fetching the rows failed. */
  function Get(fetched: Option<seq<SitemapRow>>, configured: Option<string>): (r: Response)
    ensures fetched.None? ==> r == Response(500, "")
    ensures fetched.Some? ==> r.status == 200 && r.body == Document(SiteUrl(configured), fetched.value)
  {
    match fetched
    case None => Response(500, "")
    case Some(rows) => Response(200, Document(SiteUrl(configured), rows))
  }
}
