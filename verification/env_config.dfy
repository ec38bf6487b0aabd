/** Reading the admin allow-list from the `ADMIN_EMAILS` environment variable. */
module EnvConfig {
  import opened Wrappers
  import Seqs
  import Text

  /** `process.env.ADMIN_EMAILS || ""`: an unset variable reads as the empty string. */
  function RawAdminEmails(raw: Option<string>): string
  {
    if raw.Some? then raw.value else ""
  }

  predicate NonEmpty(e: string)
  {
    e != ""
  }

  /** `.split(",")` of the variable's value. */
  function Segments(raw: Option<string>): (r: seq<string>)
    ensures |r| == Text.Occurrences(RawAdminEmails(raw), ',') + 1
  {
    Text.Split(RawAdminEmails(raw), ',')
  }

  /** The comma-separated segments, trimmed, with the empty ones dropped. */
  function ParseAdminEmails(raw: Option<string>): (r: seq<string>)
    ensures forall i :: 0 <= i < |r| ==> r[i] != ""
    ensures |r| <= Text.Occurrences(RawAdminEmails(raw), ',') + 1
  {
    Seqs.Filter(NonEmpty, Seqs.Map(Text.Trim, Segments(raw)))
  }

  /** No entry starts or ends with whitespace. */
  lemma EntriesAreTrimmed(raw: Option<string>)
    ensures forall i :: 0 <= i < |ParseAdminEmails(raw)| ==> Text.Trim(ParseAdminEmails(raw)[i]) == ParseAdminEmails(raw)[i]
  {
    var segments := Segments(raw);
    var trimmed := Seqs.Map(Text.Trim, segments);
    forall e | e in trimmed ensures Text.Trim(e) == e {
      var i :| 0 <= i < |trimmed| && trimmed[i] == e;
      Text.TrimIdempotent(segments[i]);
    }
    var r := ParseAdminEmails(raw);
    forall i | 0 <= i < |r| ensures Text.Trim(r[i]) == r[i] {
      assert r[i] in r;
    }
  }

  /** An address is listed exactly when some segment trims to it and it is not empty. */
  lemma ListedIffSomeSegment(raw: Option<string>, e: string)
    ensures e in ParseAdminEmails(raw) <==> e != "" && exists i :: 0 <= i < |Segments(raw)| && Text.Trim(Segments(raw)[i]) == e
  {
    KeptIffSomeSegment(Segments(raw), e);
  }

  /** The same for any list of segments. */
  lemma KeptIffSomeSegment(segments: seq<string>, e: string)
    ensures e in Seqs.Filter(NonEmpty, Seqs.Map(Text.Trim, segments))
      <==> e != "" && exists i :: 0 <= i < |segments| && Text.Trim(segments[i]) == e
  {
    var trimmed := Seqs.Map(Text.Trim, segments);
    if e in Seqs.Filter(NonEmpty, trimmed) {
      assert e in trimmed;
      var i :| 0 <= i < |trimmed| && trimmed[i] == e;
      assert Text.Trim(segments[i]) == e;
    }
    if e != "" && exists i :: 0 <= i < |segments| && Text.Trim(segments[i]) == e {
      var i :| 0 <= i < |segments| && Text.Trim(segments[i]) == e;
      assert trimmed[i] == e;
      assert NonEmpty(e);
    }
  }

  /** An unset or empty variable gives the empty list. */
  lemma UnsetOrEmptyIsEmpty()
    ensures ParseAdminEmails(None) == []
    ensures ParseAdminEmails(Some("")) == []
  {
    assert Text.Split("", ',') == [""];
    assert Text.Trim("") == "";
    BlankSegmentsGiveNothing(None);
    BlankSegmentsGiveNothing(Some(""));
  }

  /** A variable holding only commas and blanks gives the empty list too. */
  lemma BlanksAndCommasGiveNothing()
    ensures ParseAdminEmails(Some(" , ")) == []
  {
    var raw := " , ";
    assert RawAdminEmails(Some(raw)) == raw;
    BlankCommaSegments(raw);
    SpaceTrimsAway();
    var segments := Text.Split(raw, ',');
    forall i | 0 <= i < |segments| ensures Text.Trim(segments[i]) == "" {
      assert segments[i] == " ";
    }
    BlankSegmentsGiveNothing(Some(raw));
  }

  lemma BlankCommaSegments(raw: string)
    requires raw == " , "
    ensures Text.Split(raw, ',') == [" ", " "]
  {
    assert raw == " " + [','] + " ";
    Text.SplitTwo(" ", " ", ',');
  }

  lemma SpaceTrimsAway()
    ensures Text.Trim(" ") == ""
  {
    assert Text.IsJsWhitespace(" "[0]);
    assert " "[1..] == "";
    assert Text.TrimStart(" ") == "";
  }

  /** When every segment is blank the list is empty. */
  lemma BlankSegmentsGiveNothing(raw: Option<string>)
    requires forall i :: 0 <= i < |Segments(raw)| ==> Text.Trim(Segments(raw)[i]) == ""
    ensures ParseAdminEmails(raw) == []
  {
    var trimmed := Seqs.Map(Text.Trim, Segments(raw));
    Seqs.FilterKeepsNone(NonEmpty, trimmed);
  }

  /** Entries keep the order of the segments: the list for `a,b` is the list for `a` followed by the list for `b`. */
  lemma OrderPreserved(a: string, b: string)
    ensures ParseAdminEmails(Some(a + "," + b)) == ParseAdminEmails(Some(a)) + ParseAdminEmails(Some(b))
  {
    Text.SplitConcat(a, b, ',');
    Seqs.MapConcat(Text.Trim, Text.Split(a, ','), Text.Split(b, ','));
    Seqs.FilterConcat(NonEmpty, Seqs.Map(Text.Trim, Text.Split(a, ',')), Seqs.Map(Text.Trim, Text.Split(b, ',')));
  }
}
