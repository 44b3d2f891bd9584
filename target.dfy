/**
 * Start-up configuration and where in the datastore a notification is written:
 * `esURL/esIndexName-<date>/esType` (main.go:20-33, main.go:138-139).
 */
module Target {

  const Application: string := "alertmanager2es"
  const DefaultIndexName: string := "alertmanager"
  const DefaultIndexDateFormat: string := "2006.01"
  const DefaultType: string := "alert_group"
  const DefaultRevision: string := "unknown"

  /**
   * The values the handler reads from package variables. `runtimeVersion` is
   * what the Go runtime reports about itself (for instance "go1.8").
   * `esIndexDateFormat` is the layout the caller's clock reading is formatted
   * with; the formatted text itself is an input of the handler.
   */
  datatype Config = Config(
    esURL: string,
    esIndexName: string,
    esIndexDateFormat: string,
    esType: string,
    revision: string,
    runtimeVersion: string)

  /** The configuration when only the datastore URL is given. */
  function DefaultConfig(esURL: string, runtimeVersion: string): (cfg: Config)
    ensures cfg.esURL == esURL && cfg.runtimeVersion == runtimeVersion
    ensures cfg.esIndexName == "alertmanager" && cfg.esType == "alert_group"
    ensures cfg.esIndexDateFormat == "2006.01" && cfg.revision == "unknown"
  {
    Config(esURL, DefaultIndexName, DefaultIndexDateFormat, DefaultType, DefaultRevision, runtimeVersion)
  }

  /** `application revision (runtime)`, sent as the User-Agent. */
  function VersionString(cfg: Config): (v: string)
    ensures |v| == |Application| + 1 + |cfg.revision| + 2 + |cfg.runtimeVersion| + 1
    ensures v[..|Application| + 1] == Application + " "
    ensures v[|Application| + 1..|Application| + 1 + |cfg.revision|] == cfg.revision
    ensures v[|v| - |cfg.runtimeVersion| - 3..] == " (" + cfg.runtimeVersion + ")"
  {
    var v := Application + " " + cfg.revision + " (" + cfg.runtimeVersion + ")";
    assert v == (Application + " ") + cfg.revision + (" (" + cfg.runtimeVersion + ")");
    v
  }

  /**
   * The index name with its date suffix, then the document type. When none of
   * the three contains a slash, the result has exactly two path segments.
   */
  function IndexPath(cfg: Config, date: string): (p: string)
    ensures '/' !in cfg.esIndexName + "-" + date && '/' !in cfg.esType ==>
      Split(p, '/') == [cfg.esIndexName + "-" + date, cfg.esType]
  {
    SplitTwoPieces(cfg.esIndexName + "-" + date, cfg.esType);
    cfg.esIndexName + "-" + date + "/" + cfg.esType
  }

  function TargetURL(cfg: Config, date: string): (url: string)
    ensures |url| > |cfg.esURL| && url[..|cfg.esURL|] == cfg.esURL
  {
    cfg.esURL + "/" + IndexPath(cfg, date)
  }

  // ---------------------------------------------------------------------------
  // Path segments

  /** Cuts `s` at every `sep`, keeping the empty pieces: n separators give n + 1 pieces. */
  function Split(s: string, sep: char): (pieces: seq<string>)
    ensures |pieces| >= 1
    decreases |s|
  {
    if s == [] then [""]
    else if s[0] == sep then [""] + Split(s[1..], sep)
    else
      var rest := Split(s[1..], sep);
      [[s[0]] + rest[0]] + rest[1..]
  }

  /** `n` separators give `n + 1` pieces, and no piece contains the separator. */
  lemma {:induction false} SplitPieces(s: string, sep: char)
    ensures |Split(s, sep)| == multiset(s)[sep] + 1
    ensures forall i :: 0 <= i < |Split(s, sep)| ==> sep !in Split(s, sep)[i]
    decreases |s|
  {
    if s != [] {
      SplitPieces(s[1..], sep);
      assert s == [s[0]] + s[1..];
      assert multiset(s)[sep] == multiset(s[1..])[sep] + (if s[0] == sep then 1 else 0);
    }
  }

  /** Puts `sep` between consecutive pieces. */
  function Join(pieces: seq<string>, sep: char): string
    decreases |pieces|
  {
    if pieces == [] then ""
    else if |pieces| == 1 then pieces[0]
    else pieces[0] + [sep] + Join(pieces[1..], sep)
  }

  /** Joining a first piece onto the rest. */
  lemma JoinCons(p: string, rest: seq<string>, sep: char)
    requires |rest| >= 1
    ensures Join([p] + rest, sep) == p + [sep] + Join(rest, sep)
  {
    assert ([p] + rest)[1..] == rest;
  }

  /** Splitting loses nothing: joining the pieces again gives the original text. */
  lemma {:induction false} JoinSplit(s: string, sep: char)
    ensures Join(Split(s, sep), sep) == s
    decreases |s|
  {
    if s != [] {
      JoinSplit(s[1..], sep);
      var rest := Split(s[1..], sep);
      assert s == [s[0]] + s[1..];
      if s[0] == sep {
        JoinCons("", rest, sep);
      } else if |rest| == 1 {
        assert Split(s, sep) == [[s[0]] + rest[0]];
      } else {
        assert rest == [rest[0]] + rest[1..];
        JoinCons(rest[0], rest[1..], sep);
        JoinCons([s[0]] + rest[0], rest[1..], sep);
      }
    }
  }

  lemma {:induction false} SplitWithoutSeparator(s: string, sep: char)
    requires sep !in s
    ensures Split(s, sep) == [s]
    decreases |s|
  {
    if s != [] {
      SplitWithoutSeparator(s[1..], sep);
      assert [s[0]] + s[1..] == s;
    }
  }

  lemma {:induction false} SplitAfterPiece(a: string, sep: char, b: string)
    requires sep !in a
    ensures Split(a + [sep] + b, sep) == [a] + Split(b, sep)
    decreases |a|
  {
    if a == [] {
      assert a + [sep] + b == [sep] + b;
      assert ([sep] + b)[1..] == b;
    } else {
      SplitAfterPiece(a[1..], sep, b);
      assert (a + [sep] + b)[1..] == a[1..] + [sep] + b;
      assert [a[0]] + a[1..] == a;
    }
  }

  lemma SplitTwoPieces(a: string, b: string)
    ensures '/' !in a && '/' !in b ==> Split(a + "/" + b, '/') == [a, b]
  {
    if '/' !in a && '/' !in b {
      SplitAfterPiece(a, '/', b);
      SplitWithoutSeparator(b, '/');
    }
  }

  /**
   * Past the datastore URL, the target's path has exactly the segments "",
   * `esIndexName-date` and `esType`, provided none of these contains a slash.
   */
  lemma TargetPathSegments(cfg: Config, date: string)
    requires '/' !in cfg.esIndexName && '/' !in date && '/' !in cfg.esType
    ensures Split(TargetURL(cfg, date)[|cfg.esURL|..], '/')
         == ["", cfg.esIndexName + "-" + date, cfg.esType]
  {
    var name := cfg.esIndexName + "-" + date;
    var path := TargetURL(cfg, date)[|cfg.esURL|..];
    assert path == [] + ['/'] + (name + ['/'] + cfg.esType);
    SplitAfterPiece([], '/', name + ['/'] + cfg.esType);
    SplitAfterPiece(name, '/', cfg.esType);
    SplitWithoutSeparator(cfg.esType, '/');
  }

  /** With the default settings the path is `/alertmanager-<date>/alert_group`. */
  lemma DefaultTargetPath(esURL: string, runtimeVersion: string, date: string)
    requires '/' !in date
    ensures var cfg := DefaultConfig(esURL, runtimeVersion);
      && TargetURL(cfg, date) == esURL + "/alertmanager-" + date + "/alert_group"
      && Split(TargetURL(cfg, date)[|esURL|..], '/') == ["", "alertmanager-" + date, "alert_group"]
  {
    var cfg := DefaultConfig(esURL, runtimeVersion);
    assert "/" + "alertmanager" + "-" == "/alertmanager-";
    assert "/" + "alert_group" == "/alert_group";
    assert TargetURL(cfg, date) == esURL + ("/" + "alertmanager" + "-") + date + ("/" + "alert_group");
    assert '/' !in cfg.esIndexName && '/' !in cfg.esType;
    assert cfg.esIndexName + "-" + date == "alertmanager-" + date;
    TargetPathSegments(cfg, date);
  }

  /** The formatted date can be read back from the target: distinct dates, distinct targets. */
  lemma TargetDateInjective(cfg: Config, d1: string, d2: string)
    requires TargetURL(cfg, d1) == TargetURL(cfg, d2)
    ensures d1 == d2
  {
    var u1, u2 := TargetURL(cfg, d1), TargetURL(cfg, d2);
    var p := |cfg.esURL| + 1 + |cfg.esIndexName| + 1;
    assert |d1| == |d2|;
    assert u1[p..p + |d1|] == d1;
    assert u2[p..p + |d2|] == d2;
  }
}
