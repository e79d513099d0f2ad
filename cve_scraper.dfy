/**
 * The NVD side of the pipeline: the projection of one NVD CVE API 2.0
 * vulnerability object onto the canonical CVE record, the quarterly date
 * windows, and the page-fetch loop over a scripted upstream service.
 */
module CveScraper {
  import opened Wrappers
  import opened Text
  import opened JsonValues
  import opened Limits

  // ---------------------------------------------------------------------
  // Canonical CVE record
  // ---------------------------------------------------------------------

  /** One flattened entry of `references`: missing keys become `""`. */
  datatype Reference = Reference(url: Json, source: Json)

  /**
   * The processed CVE. Values copied out of the payload keep their JSON type,
   * since the code copies them unchecked; `cvssScore`/`severity` are `None`
   * when no CVSS v3.1 metric is present; `rawData` is the inner `cve` dict itself.
   */
  datatype CveRecord = CveRecord(
    cveId: Json,
    description: Json,
    publishedDate: Json,
    lastModified: Json,
    cvssScore: Option<Json>,
    severity: Option<Json>,
    cweIds: seq<string>,
    references: seq<Reference>,
    rawData: Json)

  const CwePrefix := "CWE-"

  // ---------------------------------------------------------------------
  // Description: the first entry whose `lang` is "en"
  // ---------------------------------------------------------------------

  predicate EnglishEntry(d: Json) {
    d.JObj? && Lookup(d, "lang") == Some(JStr("en"))
  }

  /** An entry the description loop looks at and passes over. */
  predicate OtherLanguageEntry(d: Json) {
    d.JObj? && !EnglishEntry(d)
  }

  /**
   * The description loop over `descriptions`: the `value` of the first English
   * entry, `""` when no entry is English, `None` when a non-dict entry is
   * reached first (its `.get` raises). `FirstEnglishSpec` states this.
   */
  function FirstEnglish(ds: seq<Json>): Option<Json> {
    if ds == [] then Some(JStr(""))
    else if !ds[0].JObj? then None
    else if EnglishEntry(ds[0]) then Some(Get(ds[0], "value", JStr("")))
    else FirstEnglish(ds[1..])
  }

  /**
   * The description is the `value` (default `""`) of the first entry whose
   * `lang` is "en", or `""` when there is none; the loop raises exactly when
   * a non-dict entry comes before any English one.
   */
  lemma {:induction false} FirstEnglishSpec(ds: seq<Json>)
    ensures (forall k :: 0 <= k < |ds| ==> OtherLanguageEntry(ds[k])) ==> FirstEnglish(ds) == Some(JStr(""))
    ensures forall i :: 0 <= i < |ds| && EnglishEntry(ds[i]) && (forall k :: 0 <= k < i ==> OtherLanguageEntry(ds[k])) ==>
      FirstEnglish(ds) == Some(Get(ds[i], "value", JStr("")))
    ensures FirstEnglish(ds).None? <==>
      exists i :: 0 <= i < |ds| && !ds[i].JObj? && forall k :: 0 <= k < i ==> OtherLanguageEntry(ds[k])
  {
    if ds != [] && OtherLanguageEntry(ds[0]) {
      FirstEnglishSpec(ds[1..]);
      assert forall i :: 0 < i < |ds| ==> ds[i] == ds[1..][i - 1];
      assert forall i :: 0 <= i < |ds| - 1 ==> ds[1..][i] == ds[i + 1];
    }
  }

  // ---------------------------------------------------------------------
  // CVSS v3.1 metric
  // ---------------------------------------------------------------------

  /**
   * `metrics.get("cvssMetricV31", [])` and, when that is truthy, the
   * `baseScore`/`baseSeverity` of the `cvssData` of its first entry;
   * `None` when one of these steps raises.
   */
  function MetricsOf(metrics: Json): Option<(Option<Json>, Option<Json>)> {
    if !metrics.JObj? then None
    else
      var v3 := Get(metrics, "cvssMetricV31", EmptyArray);
      if !Truthy(v3) then Some((None, None))
      else if !v3.JArr? || !v3.items[0].JObj? then None
      else
        var data := Get(v3.items[0], "cvssData", EmptyObject);
        if !data.JObj? then None
        else Some((Lookup(data, "baseScore"), Lookup(data, "baseSeverity")))
  }

  // ---------------------------------------------------------------------
  // Weaknesses: every `value` of every weakness's `description` list,
  // filtered on the "CWE-" prefix
  // ---------------------------------------------------------------------

  /** A weakness description entry whose `value` (default `""`) is a string. */
  predicate StringValued(d: Json) {
    d.JObj? && Get(d, "value", JStr("")).JStr?
  }

  function ValueOf(d: Json): string
    requires StringValued(d)
  {
    Get(d, "value", JStr("")).s
  }

  /** A weakness whose `description` list the inner loop gets through. */
  predicate WeaknessOk(w: Json) {
    && w.JObj?
    && DictElements(Get(w, "description", EmptyArray)).Some?
    && forall k :: 0 <= k < |DictElements(Get(w, "description", EmptyArray)).value| ==>
         StringValued(DictElements(Get(w, "description", EmptyArray)).value[k])
  }

  function WeaknessDescriptions(w: Json): seq<Json>
    requires WeaknessOk(w)
  {
    DictElements(Get(w, "description", EmptyArray)).value
  }

  /** The `value` strings of a list of string-valued description entries, in order. */
  function ValuesOf(es: seq<Json>): (r: seq<string>)
    requires forall k :: 0 <= k < |es| ==> StringValued(es[k])
    ensures |r| == |es|
  {
    if es == [] then [] else ValuesOf(es[..|es| - 1]) + [ValueOf(es[|es| - 1])]
  }

  /** The `value` strings of one weakness, in order. */
  function WeaknessValues(w: Json): seq<string>
    requires WeaknessOk(w)
  {
    ValuesOf(WeaknessDescriptions(w))
  }

  predicate AllWeaknessesOk(ws: seq<Json>) {
    forall k :: 0 <= k < |ws| ==> WeaknessOk(ws[k])
  }

  /** The values of all weaknesses, weakness by weakness. */
  function ConcatValues(ws: seq<Json>): seq<string>
    requires AllWeaknessesOk(ws)
  {
    if ws == [] then [] else ConcatValues(ws[..|ws| - 1]) + WeaknessValues(ws[|ws| - 1])
  }

  /** All weakness values of a `weaknesses` list, or `None` if the nested loops raise. */
  function AllWeaknessValues(ws: seq<Json>): Option<seq<string>> {
    if AllWeaknessesOk(ws) then Some(ConcatValues(ws)) else None
  }

  /** The in-order subsequence of `vs` made of the strings that start with "CWE-". */
  function CweFilter(vs: seq<string>): (r: seq<string>)
    ensures forall x :: x in r ==> StartsWith(x, CwePrefix)
    ensures |r| <= |vs|
  {
    if vs == [] then []
    else
      var last := vs[|vs| - 1];
      CweFilter(vs[..|vs| - 1]) + (if StartsWith(last, CwePrefix) then [last] else [])
  }

  /** Every "CWE-" value is kept as often as it occurs, every other value is dropped. */
  lemma {:induction false} CweFilterCounts(vs: seq<string>)
    ensures forall x :: multiset(CweFilter(vs))[x] == if StartsWith(x, CwePrefix) then multiset(vs)[x] else 0
    decreases |vs|
  {
    if vs != [] {
      var last := vs[|vs| - 1];
      assert vs == vs[..|vs| - 1] + [last];
      CweFilterCounts(vs[..|vs| - 1]);
    }
  }

  /** Filtering commutes with concatenation, so the kept values keep their order. */
  lemma {:induction false} CweFilterConcat(a: seq<string>, b: seq<string>)
    ensures CweFilter(a + b) == CweFilter(a) + CweFilter(b)
    decreases |b|
  {
    if b == [] {
      assert a + b == a;
    } else {
      var b' := b[..|b| - 1];
      assert (a + b)[..|a + b| - 1] == a + b';
      assert (a + b)[|a + b| - 1] == b[|b| - 1];
      CweFilterConcat(a, b');
    }
  }

  // ---------------------------------------------------------------------
  // References
  // ---------------------------------------------------------------------

  function ReferenceOf(d: Json): Reference
    requires d.JObj?
  {
    Reference(Get(d, "url", JStr("")), Get(d, "source", JStr("")))
  }

  /** The flattened `references` list, or `None` if an entry is not a dict. */
  function References(rs: seq<Json>): (r: Option<seq<Reference>>)
    ensures r.Some? <==> forall k :: 0 <= k < |rs| ==> rs[k].JObj?
    ensures r.Some? ==> |r.value| == |rs|
  {
    if forall k :: 0 <= k < |rs| ==> rs[k].JObj? then
      Some(seq(|rs|, k requires 0 <= k < |rs| && rs[k].JObj? => ReferenceOf(rs[k])))
    else
      None
  }

  // ---------------------------------------------------------------------
  // The whole projection
  // ---------------------------------------------------------------------

  /**
   * What processing one element of `vulnerabilities` yields: the record, or
   * `None` when one of the lookups raises (the `except Exception` branch).
   */
  function CveProjection(vuln: Json): Option<CveRecord> {
    if !vuln.JObj? then None
    else
      var cve := Get(vuln, "cve", EmptyObject);
      if !cve.JObj? then None else ProjectCve(cve)
  }

  /** The projection of the inner `cve` dict. */
  function ProjectCve(cve: Json): Option<CveRecord>
    requires cve.JObj?
  {
    var descs := DictElements(Get(cve, "descriptions", EmptyArray));
    var metric := MetricsOf(Get(cve, "metrics", EmptyObject));
    var ws := DictElements(Get(cve, "weaknesses", EmptyArray));
    var rs := DictElements(Get(cve, "references", EmptyArray));
    if descs.None? || metric.None? || ws.None? || rs.None? then None
    else
      var description := FirstEnglish(descs.value);
      var values := AllWeaknessValues(ws.value);
      var refs := References(rs.value);
      if description.None? || values.None? || refs.None? then None
      else
        Some(CveRecord(
          Get(cve, "id", JStr("UNKNOWN")),
          description.value,
          Get(cve, "published", JStr("")),
          Get(cve, "lastModified", JStr("")),
          metric.value.0,
          metric.value.1,
          CweFilter(values.value),
          refs.value,
          cve))
  }

  // ---------------------------------------------------------------------
  // The shape the NVD service sends, and the projection of it
  // ---------------------------------------------------------------------

  function CweEntries(cwes: seq<string>): (r: seq<Json>)
    ensures |r| == |cwes|
  {
    seq(|cwes|, k requires 0 <= k < |cwes| => JObj(map["value" := JStr(cwes[k])]))
  }

  function ReferenceEntries(refs: seq<Reference>): (r: seq<Json>)
    ensures |r| == |refs|
  {
    seq(|refs|, k requires 0 <= k < |refs| => JObj(map["url" := refs[k].url, "source" := refs[k].source]))
  }

  function MetricEntries(metric: Option<(Json, Json)>): seq<Json> {
    if metric.Some? then
      [JObj(map["cvssData" := JObj(map["baseScore" := metric.value.0, "baseSeverity" := metric.value.1])])]
    else []
  }

  /**
   * The inner `cve` dict laid out as the NVD CVE API 2.0 lays it out: one
   * English description, at most one CVSS v3.1 metric, one weakness holding
   * the given CWE values, and the references.
   */
  function NvdCve(id: string, description: string, published: Json, modified: Json,
                  metric: Option<(Json, Json)>, cwes: seq<string>, refs: seq<Reference>): Json
  {
    JObj(map[
      "id" := JStr(id),
      "descriptions" := JArr([JObj(map["lang" := JStr("en"), "value" := JStr(description)])]),
      "published" := published,
      "lastModified" := modified,
      "metrics" := JObj(map["cvssMetricV31" := JArr(MetricEntries(metric))]),
      "weaknesses" := JArr([JObj(map["description" := JArr(CweEntries(cwes))])]),
      "references" := JArr(ReferenceEntries(refs))])
  }

  lemma {:induction false} ValuesOfCweEntries(cwes: seq<string>)
    ensures forall k :: 0 <= k < |cwes| ==> StringValued(CweEntries(cwes)[k])
    ensures ValuesOf(CweEntries(cwes)) == cwes
    decreases |cwes|
  {
    if cwes != [] {
      var init := cwes[..|cwes| - 1];
      assert CweEntries(cwes)[..|cwes| - 1] == CweEntries(init);
      ValuesOfCweEntries(init);
      assert cwes == init + [cwes[|cwes| - 1]];
    }
  }

  lemma {:induction false} CweFilterKeepsCweValues(vs: seq<string>)
    requires forall k :: 0 <= k < |vs| ==> StartsWith(vs[k], CwePrefix)
    ensures CweFilter(vs) == vs
    decreases |vs|
  {
    if vs != [] {
      CweFilterKeepsCweValues(vs[..|vs| - 1]);
      assert vs == vs[..|vs| - 1] + [vs[|vs| - 1]];
    }
  }

  lemma {:induction false} WeaknessesOfNvd(cwes: seq<string>)
    requires forall k :: 0 <= k < |cwes| ==> StartsWith(cwes[k], CwePrefix)
    ensures AllWeaknessValues([JObj(map["description" := JArr(CweEntries(cwes))])]) == Some(cwes)
    ensures CweFilter(cwes) == cwes
  {
    var w := JObj(map["description" := JArr(CweEntries(cwes))]);
    ValuesOfCweEntries(cwes);
    assert Get(w, "description", EmptyArray) == JArr(CweEntries(cwes));
    assert DictElements(Get(w, "description", EmptyArray)) == Some(CweEntries(cwes));
    assert WeaknessOk(w);
    assert WeaknessDescriptions(w) == CweEntries(cwes);
    assert WeaknessValues(w) == cwes;
    assert [w][..0] == [];
    assert ConcatValues([w]) == cwes;
    assert AllWeaknessesOk([w]);
    CweFilterKeepsCweValues(cwes);
  }

  lemma ReferencesOfNvd(refs: seq<Reference>)
    ensures References(ReferenceEntries(refs)) == Some(refs)
  {
    var rs := ReferenceEntries(refs);
    forall k | 0 <= k < |refs| ensures rs[k].JObj? && ReferenceOf(rs[k]) == refs[k] {
      assert rs[k] == JObj(map["url" := refs[k].url, "source" := refs[k].source]);
    }
    assert forall k :: 0 <= k < |rs| ==> rs[k].JObj?;
    var got := seq(|rs|, k requires 0 <= k < |rs| && rs[k].JObj? => ReferenceOf(rs[k]));
    assert got == refs;
  }

  lemma MetricsOfNvd(metric: Option<(Json, Json)>)
    ensures MetricsOf(JObj(map["cvssMetricV31" := JArr(MetricEntries(metric))]))
        == Some((if metric.Some? then Some(metric.value.0) else None, if metric.Some? then Some(metric.value.1) else None))
  {
  }

  /** The fields of the NVD layout, as `.get` reads them back. */
  lemma NvdCveGets(id: string, description: string, published: Json, modified: Json,
                   metric: Option<(Json, Json)>, cwes: seq<string>, refs: seq<Reference>)
    ensures var cve := NvdCve(id, description, published, modified, metric, cwes, refs);
      && cve.JObj?
      && Get(cve, "descriptions", EmptyArray) == JArr([JObj(map["lang" := JStr("en"), "value" := JStr(description)])])
      && Get(cve, "metrics", EmptyObject) == JObj(map["cvssMetricV31" := JArr(MetricEntries(metric))])
      && Get(cve, "weaknesses", EmptyArray) == JArr([JObj(map["description" := JArr(CweEntries(cwes))])])
      && Get(cve, "references", EmptyArray) == JArr(ReferenceEntries(refs))
      && Get(cve, "id", JStr("UNKNOWN")) == JStr(id)
      && Get(cve, "published", JStr("")) == published
      && Get(cve, "lastModified", JStr("")) == modified
  {
    var f := NvdCve(id, description, published, modified, metric, cwes, refs).fields;
    assert f["id"] == JStr(id);
    assert f["descriptions"] == JArr([JObj(map["lang" := JStr("en"), "value" := JStr(description)])]);
    assert f["published"] == published && f["lastModified"] == modified;
    assert f["metrics"] == JObj(map["cvssMetricV31" := JArr(MetricEntries(metric))]);
    assert f["weaknesses"] == JArr([JObj(map["description" := JArr(CweEntries(cwes))])]);
    assert f["references"] == JArr(ReferenceEntries(refs));
  }

  /** `ProjectCve` from what each of its lookups yields. */
  lemma ProjectCveParts(cve: Json, ds: seq<Json>, description: Json, m: (Option<Json>, Option<Json>),
                        ws: seq<Json>, values: seq<string>, rs: seq<Json>, refs: seq<Reference>)
    requires cve.JObj?
    requires DictElements(Get(cve, "descriptions", EmptyArray)) == Some(ds) && FirstEnglish(ds) == Some(description)
    requires MetricsOf(Get(cve, "metrics", EmptyObject)) == Some(m)
    requires DictElements(Get(cve, "weaknesses", EmptyArray)) == Some(ws) && AllWeaknessValues(ws) == Some(values)
    requires DictElements(Get(cve, "references", EmptyArray)) == Some(rs) && References(rs) == Some(refs)
    ensures ProjectCve(cve) == Some(CveRecord(Get(cve, "id", JStr("UNKNOWN")), description,
                                              Get(cve, "published", JStr("")), Get(cve, "lastModified", JStr("")),
                                              m.0, m.1, CweFilter(values), refs, cve))
  {
  }

  /**
   * Round trip: a well-formed NVD object whose weakness values all carry the
   * "CWE-" prefix projects back to exactly the fields it was built from.
   */
  lemma ProjectionOfNvdVulnerability(id: string, description: string, published: Json, modified: Json,
                                     metric: Option<(Json, Json)>, cwes: seq<string>, refs: seq<Reference>)
    requires forall k :: 0 <= k < |cwes| ==> StartsWith(cwes[k], CwePrefix)
    ensures CveProjection(JObj(map["cve" := NvdCve(id, description, published, modified, metric, cwes, refs)]))
         == Some(CveRecord(JStr(id), JStr(description), published, modified,
                           if metric.Some? then Some(metric.value.0) else None,
                           if metric.Some? then Some(metric.value.1) else None,
                           cwes, refs, NvdCve(id, description, published, modified, metric, cwes, refs)))
  {
    var cve := NvdCve(id, description, published, modified, metric, cwes, refs);
    NvdCveGets(id, description, published, modified, metric, cwes, refs);
    var en := JObj(map["lang" := JStr("en"), "value" := JStr(description)]);
    assert EnglishEntry(en);
    assert FirstEnglish([en]) == Some(JStr(description));
    MetricsOfNvd(metric);
    WeaknessesOfNvd(cwes);
    ReferencesOfNvd(refs);
    ProjectCveParts(cve, [en], JStr(description),
                    (if metric.Some? then Some(metric.value.0) else None, if metric.Some? then Some(metric.value.1) else None),
                    [JObj(map["description" := JArr(CweEntries(cwes))])], cwes, ReferenceEntries(refs), refs);
    assert Get(JObj(map["cve" := cve]), "cve", EmptyObject) == cve;
  }

  /**
   * The projection, computed by the loops of the processing code: the
   * description loop stops at the first English entry, the nested weakness
   * loops collect the "CWE-" values, the reference loop flattens each entry.
   */
  method ProcessCve(vuln: Json) returns (r: Option<CveRecord>)
    ensures r == CveProjection(vuln)
  {
    if !vuln.JObj? {
      return None;
    }
    var cve := Get(vuln, "cve", EmptyObject);
    if !cve.JObj? {
      return None;
    }
    var cveId := Get(cve, "id", JStr("UNKNOWN"));

    var descriptions := DictElements(Get(cve, "descriptions", EmptyArray));
    if descriptions.None? {
      return None;
    }
    var ds := descriptions.value;
    var description := JStr("");
    for i := 0 to |ds|
      invariant forall k :: 0 <= k < i ==> OtherLanguageEntry(ds[k])
      invariant description == JStr("")
    {
      if !ds[i].JObj? {
        FirstEnglishSpec(ds);
        return None;
      }
      if EnglishEntry(ds[i]) {
        description := Get(ds[i], "value", JStr(""));
        FirstEnglishSpec(ds);
        break;
      }
    }
    FirstEnglishSpec(ds);
    r := ProcessRest(vuln, cve, cveId, description);
  }

  /** The part of `ProcessCve` after the description loop. */
  method ProcessRest(vuln: Json, cve: Json, cveId: Json, description: Json) returns (r: Option<CveRecord>)
    requires vuln.JObj? && cve == Get(vuln, "cve", EmptyObject) && cve.JObj?
    requires cveId == Get(cve, "id", JStr("UNKNOWN"))
    requires DictElements(Get(cve, "descriptions", EmptyArray)).Some?
    requires FirstEnglish(DictElements(Get(cve, "descriptions", EmptyArray)).value) == Some(description)
    ensures r == CveProjection(vuln)
  {
    var metric := MetricsOf(Get(cve, "metrics", EmptyObject));
    if metric.None? {
      return None;
    }
    var cvssScore, severity := metric.value.0, metric.value.1;

    var weaknesses := DictElements(Get(cve, "weaknesses", EmptyArray));
    if weaknesses.None? {
      return None;
    }
    var cweIds := CollectCweIds(weaknesses.value);
    if cweIds.None? {
      return None;
    }

    var refs := DictElements(Get(cve, "references", EmptyArray));
    if refs.None? {
      return None;
    }
    var references := FlattenReferences(refs.value);
    if references.None? {
      return None;
    }

    r := Some(CveRecord(
      cveId,
      description,
      Get(cve, "published", JStr("")),
      Get(cve, "lastModified", JStr("")),
      cvssScore,
      severity,
      cweIds.value,
      references.value,
      cve));
  }

  /** The nested weakness loops: the "CWE-" values, or `None` where a step raises. */
  method CollectCweIds(ws: seq<Json>) returns (r: Option<seq<string>>)
    ensures r == (var values := AllWeaknessValues(ws); if values.None? then None else Some(CweFilter(values.value)))
  {
    var cweIds: seq<string> := [];
    for i := 0 to |ws|
      invariant AllWeaknessesOk(ws[..i])
      invariant cweIds == CweFilter(ConcatValues(ws[..i]))
    {
      var w := ws[i];
      if !w.JObj? {
        WeaknessFails(ws, i);
        return None;
      }
      var inner := DictElements(Get(w, "description", EmptyArray));
      if inner.None? {
        WeaknessFails(ws, i);
        return None;
      }
      var found := DescriptionCweIds(inner.value);
      if found.None? {
        WeaknessFails(ws, i);
        return None;
      }
      assert WeaknessOk(w);
      assert found.value == CweFilter(WeaknessValues(w));
      ConcatValuesStep(ws, i);
      CweFilterConcat(ConcatValues(ws[..i]), WeaknessValues(w));
      cweIds := cweIds + found.value;
    }
    assert ws[..|ws|] == ws;
    r := Some(cweIds);
  }

  /** A weakness the inner loops cannot get through makes the whole list fail. */
  lemma WeaknessFails(ws: seq<Json>, i: int)
    requires 0 <= i < |ws| && !WeaknessOk(ws[i])
    ensures AllWeaknessValues(ws) == None
  { }

  /** One more weakness the inner loops get through extends the collected values by its own. */
  lemma ConcatValuesStep(ws: seq<Json>, i: int)
    requires 0 <= i < |ws| && AllWeaknessesOk(ws[..i]) && WeaknessOk(ws[i])
    ensures AllWeaknessesOk(ws[..i + 1])
    ensures ConcatValues(ws[..i + 1]) == ConcatValues(ws[..i]) + WeaknessValues(ws[i])
  {
    var p := ws[..i + 1];
    assert p[..i] == ws[..i];
    assert p[i] == ws[i];
    assert forall k :: 0 <= k < |p| ==> WeaknessOk(p[k]) by {
      forall k | 0 <= k < |p|
        ensures WeaknessOk(p[k])
      {
        if k < i {
          assert p[k] == ws[..i][k];
        }
      }
    }
  }

  /** The inner loop over one weakness's `description` list. */
  method DescriptionCweIds(es: seq<Json>) returns (r: Option<seq<string>>)
    ensures r.Some? <==> forall k :: 0 <= k < |es| ==> StringValued(es[k])
    ensures r.Some? ==> r.value == CweFilter(ValuesOf(es))
  {
    var cweIds: seq<string> := [];
    for j := 0 to |es|
      invariant forall k :: 0 <= k < j ==> StringValued(es[k])
      invariant cweIds == CweFilter(ValuesOf(es[..j]))
    {
      var d := es[j];
      if !d.JObj? {
        return None;
      }
      var value := Get(d, "value", JStr(""));
      if !value.JStr? {
        return None;
      }
      assert es[..j + 1][..j] == es[..j];
      if StartsWith(value.s, CwePrefix) {
        cweIds := cweIds + [value.s];
      }
    }
    assert es[..|es|] == es;
    r := Some(cweIds);
  }

  /** The reference loop: one `Reference` per entry, or `None` at a non-dict entry. */
  method FlattenReferences(rs: seq<Json>) returns (r: Option<seq<Reference>>)
    ensures r == References(rs)
  {
    var references: seq<Reference> := [];
    for i := 0 to |rs|
      invariant forall k :: 0 <= k < i ==> rs[k].JObj?
      invariant references == seq(i, k requires 0 <= k < i && rs[k].JObj? => ReferenceOf(rs[k]))
    {
      var ref := rs[i];
      if !ref.JObj? {
        return None;
      }
      references := references + [Reference(Get(ref, "url", JStr("")), Get(ref, "source", JStr("")))];
    }
    r := Some(references);
  }

  // ---------------------------------------------------------------------
  // Date sub-ranges
  // ---------------------------------------------------------------------

  datatype DateTime = DateTime(year: int, month: nat, day: nat, hour: nat, minute: nat, second: nat)

  predicate IsLeap(y: int) {
    y % 4 == 0 && (y % 100 != 0 || y % 400 == 0)
  }

  function DaysInYear(y: int): nat {
    if IsLeap(y) then 366 else 365
  }

  function DaysInMonth(y: int, m: nat): nat
    requires 1 <= m <= 12
  {
    if m == 2 then (if IsLeap(y) then 29 else 28)
    else if m == 4 || m == 6 || m == 9 || m == 11 then 30
    else 31
  }

  function DaysBeforeMonth(y: int, m: nat): nat
    requires 1 <= m <= 12
  {
    if m == 1 then 0 else DaysBeforeMonth(y, m - 1) + DaysInMonth(y, m - 1)
  }

  predicate ValidDateTime(t: DateTime) {
    && 1 <= t.month <= 12
    && 1 <= t.day <= DaysInMonth(t.year, t.month)
    && t.hour < 24 && t.minute < 60 && t.second < 60
  }

  /** 1 for January 1st. */
  function DayOfYear(t: DateTime): nat
    requires ValidDateTime(t)
  {
    DaysBeforeMonth(t.year, t.month) + t.day
  }

  predicate StartOfDay(t: DateTime) {
    t.hour == 0 && t.minute == 0 && t.second == 0
  }

  predicate EndOfDay(t: DateTime) {
    t.hour == 23 && t.minute == 59 && t.second == 59
  }

  /** `f"{t.year}-{t.month:02d}-{t.day:02d}T{t.hour:02d}:{t.minute:02d}:{t.second:02d}"` */
  function IsoFormat(t: DateTime): string {
    IntToString(t.year) + "-" + Pad2(t.month) + "-" + Pad2(t.day)
      + "T" + Pad2(t.hour) + ":" + Pad2(t.minute) + ":" + Pad2(t.second)
  }

  /** One `(start_date, end_date)` pair; `(None, None)` is `Unbounded`. */
  datatype DateWindow = Unbounded | Window(start: DateTime, end: DateTime)

  /** The number of calendar days a window touches. */
  function WindowDays(w: DateWindow): int
    requires w.Window? && ValidDateTime(w.start) && ValidDateTime(w.end)
  {
    DayOfYear(w.end) - DayOfYear(w.start) + 1
  }

  /** The published-date ceiling of one NVD query, in days. */
  const MaxWindowDays := 120

  function Quarter(y: int, firstMonth: nat, lastMonth: nat, lastDay: nat): DateWindow {
    Window(DateTime(y, firstMonth, 1, 0, 0, 0), DateTime(y, lastMonth, lastDay, 23, 59, 59))
  }

  /**
   * `date_ranges`: with a (non-zero) year, the four quarters of that year,
   * each from the first day of its first month to the last day of its
   * third month, which tile the year day after day and each stay within the 120-day
   * ceiling; otherwise one unbounded pass.
   */
  function DateRanges(year: Option<int>): (r: seq<DateWindow>)
    ensures year.None? || year.value == 0 ==> r == [Unbounded]
    ensures year.Some? && year.value != 0 ==>
      && |r| == 4
      && (forall k :: 0 <= k < 4 ==>
            && r[k].Window?
            && ValidDateTime(r[k].start) && ValidDateTime(r[k].end)
            && r[k].start.year == year.value && r[k].end.year == year.value
            && StartOfDay(r[k].start) && EndOfDay(r[k].end)
            && r[k].start.month == 3 * k + 1 && r[k].start.day == 1
            && r[k].end.month == 3 * k + 3 && r[k].end.day == DaysInMonth(year.value, 3 * k + 3)
            && 1 <= WindowDays(r[k]) <= MaxWindowDays)
      && DayOfYear(r[0].start) == 1
      && (forall k :: 0 <= k < 3 ==> DayOfYear(r[k + 1].start) == DayOfYear(r[k].end) + 1)
      && DayOfYear(r[3].end) == DaysInYear(year.value)
  {
    if year.Some? && year.value != 0 then
      QuartersCalendar(year.value);
      QuartersTile(year.value);
      Quarters(year.value)
    else
      [Unbounded]
  }

  /** The four quarters of year `y`, as the source writes them out. */
  function Quarters(y: int): seq<DateWindow> {
    [Quarter(y, 1, 3, 31), Quarter(y, 4, 6, 30), Quarter(y, 7, 9, 30), Quarter(y, 10, 12, 31)]
  }

  /** Each quarter runs from the first moment of its first month to the last moment of its third. */
  lemma QuartersCalendar(y: int)
    ensures var r := Quarters(y);
      && |r| == 4
      && forall k :: 0 <= k < 4 ==>
           && r[k].Window?
           && ValidDateTime(r[k].start) && ValidDateTime(r[k].end)
           && r[k].start.year == y && r[k].end.year == y
           && StartOfDay(r[k].start) && EndOfDay(r[k].end)
           && r[k].start.month == 3 * k + 1 && r[k].start.day == 1
           && r[k].end.month == 3 * k + 3 && r[k].end.day == DaysInMonth(y, 3 * k + 3)
  {
    assert DaysInMonth(y, 3) == 31 && DaysInMonth(y, 6) == 30 && DaysInMonth(y, 9) == 30 && DaysInMonth(y, 12) == 31;
  }

  /** The quarters tile the year day after day, each within the 120-day ceiling. */
  lemma QuartersTile(y: int)
    ensures var r := Quarters(y);
      && |r| == 4 && (forall k :: 0 <= k < 4 ==> r[k].Window?)
      && (forall k :: 0 <= k < 4 ==> 1 <= WindowDays(r[k]) <= MaxWindowDays)
      && DayOfYear(r[0].start) == 1
      && (forall k :: 0 <= k < 3 ==> DayOfYear(r[k + 1].start) == DayOfYear(r[k].end) + 1)
      && DayOfYear(r[3].end) == DaysInYear(y)
  {
    var leap := if IsLeap(y) then 1 else 0;
    assert DaysBeforeMonth(y, 2) == 31;
    assert DaysBeforeMonth(y, 3) == 59 + leap;
    assert DaysBeforeMonth(y, 4) == 90 + leap;
    assert DaysBeforeMonth(y, 5) == 120 + leap;
    assert DaysBeforeMonth(y, 6) == 151 + leap;
    assert DaysBeforeMonth(y, 7) == 181 + leap;
    assert DaysBeforeMonth(y, 8) == 212 + leap;
    assert DaysBeforeMonth(y, 9) == 243 + leap;
    assert DaysBeforeMonth(y, 10) == 273 + leap;
    assert DaysBeforeMonth(y, 11) == 304 + leap;
    assert DaysBeforeMonth(y, 12) == 334 + leap;
  }

  // ---------------------------------------------------------------------
  // The upstream service, as a script of responses
  // ---------------------------------------------------------------------

  /** The query parameters of one GET. */
  datatype Request = Request(
    resultsPerPage: int,
    startIndex: int,
    pubDates: Option<(string, string)>,
    cvssV3Severity: Option<string>)

  /**
   * What one GET yields: a decoded page (`vulnerabilities` and `totalResults`,
   * with `[]` and `0` standing for absent keys), HTTP 403, or any
   * `RequestException` (connection failure, other HTTP error status, bad JSON).
   */
  datatype Response =
    | Page(vulnerabilities: seq<Json>, totalResults: int)
    | RateLimited
    | TransportError

  /** The fixed arguments of one `fetch_cves` call. */
  datatype Query = Query(severity: Option<string>, resultsPerPage: int, maxResults: Option<int>)

  function PubDates(w: DateWindow): Option<(string, string)> {
    match w
    case Unbounded => None
    case Window(start, end) => Some((IsoFormat(start), IsoFormat(end)))
  }

  /** The `params` dict built for each request of a window at an offset. */
  function RequestFor(w: DateWindow, q: Query, startIndex: int): Request {
    Request(q.resultsPerPage, startIndex, PubDates(w),
            if q.severity.Some? && q.severity.value != "" then q.severity else None)
  }

  /** The next response of the script, and what is left; an exhausted script fails like a dead connection. */
  function Serve(pending: seq<Response>): (Response, seq<Response>) {
    if pending == [] then (TransportError, []) else (pending[0], pending[1..])
  }

  /** The responses the first `n` requests get from `pending`, each request reading the next one. */
  function Answers(pending: seq<Response>, n: nat): (r: seq<Response>)
    ensures |r| == n
  {
    if n == 0 then [] else [Serve(pending).0] + Answers(Serve(pending).1, n - 1)
  }

  function Drop(pending: seq<Response>, n: nat): seq<Response> {
    if n <= |pending| then pending[n..] else []
  }

  /** How many of `answers` are transport errors. */
  function Failures(answers: seq<Response>): nat {
    if answers == [] then 0
    else (if answers[0].TransportError? then 1 else 0) + Failures(answers[1..])
  }

  lemma {:induction false} FailuresConcat(a: seq<Response>, b: seq<Response>)
    ensures Failures(a + b) == Failures(a) + Failures(b)
  {
    if a != [] {
      assert (a + b)[0] == a[0] && (a + b)[1..] == a[1..] + b;
      FailuresConcat(a[1..], b);
    } else {
      assert a + b == b;
    }
  }

  lemma FailuresCons(a: Response, rest: seq<Response>)
    ensures Failures([a] + rest) == (if a.TransportError? then 1 else 0) + Failures(rest)
  {
    assert ([a] + rest)[0] == a && ([a] + rest)[1..] == rest;
  }

  /** The answers to `m + n` requests are those to the first `m`, then those the rest of the script gives. */
  lemma {:induction false} AnswersSplit(pending: seq<Response>, m: nat, n: nat)
    decreases m
    ensures Answers(pending, m + n) == Answers(pending, m) + Answers(Drop(pending, m), n)
  {
    if m > 0 {
      var rest := Serve(pending).1;
      assert rest == Drop(pending, 1);
      AnswersSplit(rest, m - 1, n);
      DropDrop(pending, 1, m - 1);
      assert Answers(pending, m + n) == [Serve(pending).0] + Answers(rest, m - 1 + n);
    }
  }

  // ---------------------------------------------------------------------
  // The fetch loop as a function of the script
  // ---------------------------------------------------------------------

  /**
   * Everything the fetch loop changes: the returned list, the two counters,
   * the unread script and the requests sent so far.
   */
  datatype FetchState = FetchState(
    cves: seq<CveRecord>,
    fetched: nat,
    errors: nat,
    pending: seq<Response>,
    sent: seq<Request>)

  /** What processing each element of a page yields, in page order. */
  function Projections(vs: seq<Json>): seq<Option<CveRecord>> {
    seq(|vs|, k requires 0 <= k < |vs| => CveProjection(vs[k]))
  }

  /** The records among processing outcomes, in order, skipping the ones whose processing failed. */
  function Kept(cs: seq<Option<CveRecord>>): seq<CveRecord> {
    if cs == [] then []
    else (if cs[0].Some? then [cs[0].value] else []) + Kept(cs[1..])
  }

  /** The state after one element of a page: its record, if processing succeeded, appended and counted. */
  function Appended(st: FetchState, c: Option<CveRecord>): FetchState {
    if c.Some? then st.(cves := st.cves + [c.value], fetched := st.fetched + 1) else st
  }

  /**
   * The loop over one page's `vulnerabilities` with its `max_results`
   * break, given what processing each element yields.
   */
  function TakeRecords(cs: seq<Option<CveRecord>>, maxResults: Option<int>, st: FetchState): (r: FetchState)
    ensures r.pending == st.pending && r.sent == st.sent && r.errors == st.errors
  {
    if cs == [] then st
    else
      var st' := Appended(st, cs[0]);
      if Capped(maxResults, st'.fetched) then st' else TakeRecords(cs[1..], maxResults, st')
  }

  /** How one pass of the `while True` body ends: the loop goes round again from an offset, or it stops. */
  datatype Pass = Again(startIndex: int, st: FetchState) | Done(st: FetchState)

  /**
   * One pass of the body: one request, then a retry on 403, a stop on a
   * failed request, an empty page, the cap or the last page, and otherwise
   * the next page.
   */
  function RangePass(w: DateWindow, q: Query, startIndex: int, st: FetchState): (p: Pass)
    ensures p.Again? ==> |p.st.pending| < |st.pending|
  {
    var st1 := Requested(st, RequestFor(w, q, startIndex));
    match Serve(st.pending).0
    case RateLimited => Again(startIndex, st1)
    case TransportError => Done(Failed(st1))
    case Page(vs, total) =>
      if vs == [] then Done(st1)
      else
        var st2 := TakeRecords(Projections(vs), q.maxResults, st1);
        if Capped(q.maxResults, st2.fetched) || startIndex + q.resultsPerPage >= total then Done(st2)
        else Again(startIndex + q.resultsPerPage, st2)
  }

  /** The state after a request is sent and the next response of the script read. */
  function Requested(st: FetchState, request: Request): FetchState {
    st.(pending := Serve(st.pending).1, sent := st.sent + [request])
  }

  /** The state after a failed request is counted. */
  function Failed(st: FetchState): FetchState {
    st.(errors := st.errors + 1)
  }

  /** The `while True` loop over the pages of one date window, from `startIndex` on. */
  function RangeLoop(w: DateWindow, q: Query, startIndex: int, st: FetchState): FetchState
    decreases |st.pending|
  {
    match RangePass(w, q, startIndex, st)
    case Again(next, st') => RangeLoop(w, q, next, st')
    case Done(st') => st'
  }

  /** The loop over the date windows, with its `max_results` check before each window. */
  function FetchRanges(ranges: seq<DateWindow>, q: Query, st: FetchState): FetchState {
    if ranges == [] || Capped(q.maxResults, st.fetched) then st
    else FetchRanges(ranges[1..], q, RangeLoop(ranges[0], q, 0, st))
  }

  /** One `fetch_cves` call: the local list starts empty, the counters and the session carry over. */
  function Fetch(year: Option<int>, q: Query, st: FetchState): FetchState {
    FetchRanges(DateRanges(year), q, st.(cves := []))
  }

  // ---------------------------------------------------------------------
  // Properties of the fetch loop
  // ---------------------------------------------------------------------

  /**
   * `r` follows `st`: requests and records are only appended, every
   * appended record is counted, the script loses one response per request
   * sent, and the error counter does not go down.
   */
  predicate Extends(st: FetchState, r: FetchState) {
    && |r.sent| >= |st.sent| && r.sent[..|st.sent|] == st.sent
    && |r.cves| >= |st.cves| && r.cves[..|st.cves|] == st.cves
    && st.fetched <= r.fetched && |r.cves| - |st.cves| == r.fetched - st.fetched
    && st.errors <= r.errors
    && r.pending == Drop(st.pending, |r.sent| - |st.sent|)
  }

  lemma ExtendsRefl(st: FetchState)
    ensures Extends(st, st)
  {
    assert st.sent[..|st.sent|] == st.sent && st.cves[..|st.cves|] == st.cves;
  }

  lemma ExtendsTrans(a: FetchState, b: FetchState, c: FetchState)
    requires Extends(a, b) && Extends(b, c)
    ensures Extends(a, c)
  {
    PrefixTrans(a.sent, b.sent, c.sent);
    PrefixTrans(a.cves, b.cves, c.cves);
    DropDrop(a.pending, |b.sent| - |a.sent|, |c.sent| - |b.sent|);
    assert c.pending == Drop(a.pending, |c.sent| - |a.sent|);
    assert a.fetched <= c.fetched && |c.cves| - |a.cves| == c.fetched - a.fetched;
  }

  lemma PrefixTrans<T>(a: seq<T>, b: seq<T>, c: seq<T>)
    requires |a| <= |b| <= |c| && b[..|a|] == a && c[..|b|] == b
    ensures c[..|a|] == a
  {
    assert c[..|a|] == c[..|b|][..|a|];
  }

  /** Appending the record of one page element, if there is one. */
  lemma ExtendsAppended(st: FetchState, c: Option<CveRecord>)
    ensures Extends(st, Appended(st, c))
  {
    if c.Some? {
      assert (st.cves + [c.value])[..|st.cves|] == st.cves;
    } else {
      ExtendsRefl(st);
    }
  }

  /** Sending one request and reading its response. */
  lemma ExtendsRequest(st: FetchState, request: Request)
    ensures Extends(st, Requested(st, request))
  {
    assert (st.sent + [request])[..|st.sent|] == st.sent;
    assert st.cves[..|st.cves|] == st.cves;
  }

  /** One page: the records are appended and counted, and nothing is sent. */
  lemma {:induction false} TakeRecordsCount(cs: seq<Option<CveRecord>>, maxResults: Option<int>, st: FetchState)
    ensures Extends(st, TakeRecords(cs, maxResults, st))
  {
    var r := TakeRecords(cs, maxResults, st);
    if cs == [] {
      ExtendsRefl(st);
    } else {
      var st' := Appended(st, cs[0]);
      ExtendsAppended(st, cs[0]);
      if !Capped(maxResults, st'.fetched) {
        TakeRecordsCount(cs[1..], maxResults, st');
        assert r == TakeRecords(cs[1..], maxResults, st');
        ExtendsTrans(st, st', r);
      } else {
        assert r == st';
      }
    }
  }

  /** A positive cap not yet reached is never overshot by one page. */
  lemma {:induction false} TakeRecordsCap(cs: seq<Option<CveRecord>>, maxResults: Option<int>, st: FetchState)
    requires PositiveCap(maxResults) && st.fetched < maxResults.value
    ensures TakeRecords(cs, maxResults, st).fetched <= maxResults.value
  {
    if cs != [] {
      var st' := Appended(st, cs[0]);
      assert st'.fetched <= st.fetched + 1;
      if !Capped(maxResults, st'.fetched) {
        TakeRecordsCap(cs[1..], maxResults, st');
      }
    }
  }

  /** One turn of the page loop: the entry's record, if any, is appended and counted, then the cap is checked. */
  lemma TakeRecordsStep(cs: seq<Option<CveRecord>>, i: int, maxResults: Option<int>, st: FetchState)
    requires 0 <= i < |cs|
    ensures TakeRecords(cs[i..], maxResults, st)
         == var st' := Appended(st, cs[i]);
            if Capped(maxResults, st'.fetched) then st' else TakeRecords(cs[i + 1..], maxResults, st')
  {
    var t := cs[i..];
    assert t != [] && t[0] == cs[i] && t[1..] == cs[i + 1..];
  }

  /** The records one page appends are those of its first `k` entries, all of them unless capped. */
  predicate PagePrefix(cs: seq<Option<CveRecord>>, maxResults: Option<int>, st: FetchState, r: FetchState, k: int) {
    && 0 <= k <= |cs|
    && r.cves == st.cves + Kept(cs[..k])
    && (k < |cs| ==> Capped(maxResults, r.fetched))
  }

  lemma KeptCons(cs: seq<Option<CveRecord>>, k: nat)
    requires k < |cs|
    ensures Kept(cs[..k + 1]) == Kept([cs[0]]) + Kept(cs[1..][..k])
  {
    var p := cs[..k + 1];
    assert p[0] == cs[0] && p[1..] == cs[1..][..k];
    assert [cs[0]][1..] == [];
  }

  /** One page: the records appended are those of a prefix of the page, the whole page unless capped. */
  lemma {:induction false} TakeRecordsPrefix(cs: seq<Option<CveRecord>>, maxResults: Option<int>, st: FetchState)
    ensures exists k :: PagePrefix(cs, maxResults, st, TakeRecords(cs, maxResults, st), k)
  {
    var r := TakeRecords(cs, maxResults, st);
    if cs == [] {
      assert cs[..0] == [];
      assert PagePrefix(cs, maxResults, st, r, 0);
    } else {
      var st' := Appended(st, cs[0]);
      assert [cs[0]][1..] == [];
      assert st'.cves == st.cves + Kept([cs[0]]);
      if Capped(maxResults, st'.fetched) {
        assert r == st';
        assert cs[..1] == [cs[0]];
        assert PagePrefix(cs, maxResults, st, r, 1);
      } else {
        assert r == TakeRecords(cs[1..], maxResults, st');
        TakeRecordsPrefix(cs[1..], maxResults, st');
        var k' :| PagePrefix(cs[1..], maxResults, st', r, k');
        PagePrefixStep(cs, maxResults, st, r, k');
      }
    }
  }

  /** A prefix of the tail after the first element is, with that element, a prefix of the page. */
  lemma PagePrefixStep(cs: seq<Option<CveRecord>>, maxResults: Option<int>, st: FetchState, r: FetchState, k: int)
    requires cs != [] && PagePrefix(cs[1..], maxResults, Appended(st, cs[0]), r, k)
    ensures PagePrefix(cs, maxResults, st, r, k + 1)
  {
    var st' := Appended(st, cs[0]);
    assert [cs[0]][1..] == [];
    assert st'.cves == st.cves + Kept([cs[0]]);
    KeptCons(cs, k);
    assert r.cves == st.cves + (Kept([cs[0]]) + Kept(cs[1..][..k]));
    assert k + 1 < |cs| ==> k < |cs[1..]|;
  }

  /**
   * One pass: exactly one request is sent, for `startIndex`, and answered
   * by the head of the script; the state is extended; exactly one error is
   * counted when that answer is a transport error, which ends the loop,
   * and none otherwise; and a positive cap not yet reached is not
   * overshot, nor reached when the loop goes on.
   */
  lemma RangePassFacts(w: DateWindow, q: Query, startIndex: int, st: FetchState)
    ensures var p := RangePass(w, q, startIndex, st);
      && Extends(st, p.st)
      && p.st.sent == st.sent + [RequestFor(w, q, startIndex)] && p.st.pending == Serve(st.pending).1
      && p.st.errors == st.errors + (if Serve(st.pending).0.TransportError? then 1 else 0)
      && (Serve(st.pending).0.TransportError? ==> p.Done?)
      && (PositiveCap(q.maxResults) && st.fetched < q.maxResults.value ==>
            p.st.fetched <= q.maxResults.value && (p.Again? ==> p.st.fetched < q.maxResults.value))
  {
    var p := RangePass(w, q, startIndex, st);
    var request := RequestFor(w, q, startIndex);
    var st1 := Requested(st, request);
    ExtendsRequest(st, request);
    match Serve(st.pending).0
    case RateLimited =>
      assert p.st == st1;
    case TransportError =>
      assert p.st == Failed(st1);
      assert Extends(st, p.st);
    case Page(vs, total) =>
      if vs == [] {
        assert p.st == st1;
      } else {
        var st2 := TakeRecords(Projections(vs), q.maxResults, st1);
        TakeRecordsCount(Projections(vs), q.maxResults, st1);
        if PositiveCap(q.maxResults) && st.fetched < q.maxResults.value {
          TakeRecordsCap(Projections(vs), q.maxResults, st1);
        }
        ExtendsTrans(st, st1, st2);
        assert p.st == st2;
      }
  }

  /** The window loop runs one pass, then goes round again or stops as the pass says. */
  lemma RangeLoopStep(w: DateWindow, q: Query, startIndex: int, st: FetchState)
    ensures var p := RangePass(w, q, startIndex, st);
      RangeLoop(w, q, startIndex, st) == if p.Again? then RangeLoop(w, q, p.startIndex, p.st) else p.st
  { }

  /** A pass that reads a non-empty page. */
  lemma PagePass(w: DateWindow, q: Query, startIndex: int, st: FetchState)
    requires Serve(st.pending).0.Page? && Serve(st.pending).0.vulnerabilities != []
    ensures var a := Serve(st.pending).0;
      var st2 := TakeRecords(Projections(a.vulnerabilities), q.maxResults, Requested(st, RequestFor(w, q, startIndex)));
      RangePass(w, q, startIndex, st)
        == if Capped(q.maxResults, st2.fetched) || startIndex + q.resultsPerPage >= a.totalResults then Done(st2)
           else Again(startIndex + q.resultsPerPage, st2)
  { }

  /** One pass sends one request, for `startIndex`, and reads one response of the script. */
  lemma RangePassSent(w: DateWindow, q: Query, startIndex: int, st: FetchState)
    ensures var p := RangePass(w, q, startIndex, st);
      p.st.sent == st.sent + [RequestFor(w, q, startIndex)] && p.st.pending == Serve(st.pending).1
  { }

  /** One pass, read against the answer it got: it goes on exactly when `Continues` says so. */
  lemma RangePassAnswer(w: DateWindow, q: Query, startIndex: int, st: FetchState)
    ensures var p := RangePass(w, q, startIndex, st);
      var a := Serve(st.pending).0;
      && (p.Again? ==> Continues(q, startIndex, a) && p.startIndex == NextIndex(q, startIndex, a))
      && (p.Done? ==> Stops(q, startIndex, a, p.st.fetched))
  { }

  /**
   * One date window: the window sends at least one request, extends the
   * state, adds one error per transport error among the answers it read,
   * and stays within a positive cap.
   */
  lemma {:induction false} RangeLoopFacts(w: DateWindow, q: Query, startIndex: int, st: FetchState)
    decreases |st.pending|
    ensures var r := RangeLoop(w, q, startIndex, st);
      && Extends(st, r) && |r.sent| > |st.sent| && r.errors <= st.errors + 1
      && CountsFailures(st, r)
      && (PositiveCap(q.maxResults) && st.fetched < q.maxResults.value ==> r.fetched <= q.maxResults.value)
  {
    var r := RangeLoop(w, q, startIndex, st);
    var p := RangePass(w, q, startIndex, st);
    RangePassFacts(w, q, startIndex, st);
    RangeLoopFailures(w, q, startIndex, st);
    if p.Again? {
      assert r == RangeLoop(w, q, p.startIndex, p.st);
      RangeLoopFacts(w, q, p.startIndex, p.st);
      ExtendsTrans(st, p.st, r);
      assert |r.sent| > |st.sent| && r.errors <= st.errors + 1;
    } else {
      assert r == p.st;
    }
  }

  /** `r` counts one error for each transport error among the answers read since `st`, and no other. */
  predicate CountsFailures(st: FetchState, r: FetchState) {
    |r.sent| >= |st.sent| && r.errors == st.errors + Failures(Answers(st.pending, |r.sent| - |st.sent|))
  }

  /** One window counts exactly the transport errors it read. */
  lemma {:induction false} RangeLoopFailures(w: DateWindow, q: Query, startIndex: int, st: FetchState)
    decreases |st.pending|
    ensures CountsFailures(st, RangeLoop(w, q, startIndex, st))
  {
    var r := RangeLoop(w, q, startIndex, st);
    var p := RangePass(w, q, startIndex, st);
    RangePassFacts(w, q, startIndex, st);
    if p.Again? {
      assert r == RangeLoop(w, q, p.startIndex, p.st);
      RangeLoopFailures(w, q, p.startIndex, p.st);
      OneMoreAnswer(st, p.st, r);
    } else {
      assert r == p.st;
      assert Answers(st.pending, 1) == [Serve(st.pending).0] + Answers(Serve(st.pending).1, 0);
      FailuresCons(Serve(st.pending).0, []);
    }
  }

  /** A request answered by something other than a transport error, then the rest of the conversation. */
  lemma OneMoreAnswer(st: FetchState, mid: FetchState, r: FetchState)
    requires |mid.sent| == |st.sent| + 1 && mid.pending == Serve(st.pending).1
    requires !Serve(st.pending).0.TransportError? && mid.errors == st.errors
    requires CountsFailures(mid, r)
    ensures CountsFailures(st, r)
  {
    var n := |r.sent| - |st.sent|;
    assert Answers(st.pending, n) == [Serve(st.pending).0] + Answers(mid.pending, n - 1);
    FailuresCons(Serve(st.pending).0, Answers(mid.pending, n - 1));
  }

  /** The loop goes on after this answer: a 403, or a non-empty page short of `totalResults`. */
  predicate Continues(q: Query, startIndex: int, a: Response) {
    || a.RateLimited?
    || (a.Page? && a.vulnerabilities != [] && startIndex + q.resultsPerPage < a.totalResults)
  }

  /** The offset of the next request: a 403 retries the same page. */
  function NextIndex(q: Query, startIndex: int, a: Response): int {
    if a.RateLimited? then startIndex else startIndex + q.resultsPerPage
  }

  /**
   * The loop stops after this answer: a failed request, an empty page, the
   * cap reached (counted after the page), or the last page of the window.
   */
  predicate Stops(q: Query, startIndex: int, a: Response, fetched: int) {
    || a.TransportError?
    || (a.Page? && (a.vulnerabilities == [] || Capped(q.maxResults, fetched)
                    || startIndex + q.resultsPerPage >= a.totalResults))
  }

  /**
   * The requests a window sends from `startIndex` on and the answers they
   * got: the first request carries the window's dates, the query's page
   * size and severity and the offset `startIndex`; every answer but the
   * last makes the loop go on, from the offset `NextIndex` gives; the last
   * answer ends the loop.
   */
  predicate RangeTrace(w: DateWindow, q: Query, startIndex: int,
                       reqs: seq<Request>, answers: seq<Response>, fetched: int)
    decreases |reqs|
  {
    && |reqs| == |answers| > 0
    && reqs[0] == RequestFor(w, q, startIndex)
    && if |reqs| == 1 then Stops(q, startIndex, answers[0], fetched)
       else
         && Continues(q, startIndex, answers[0])
         && RangeTrace(w, q, NextIndex(q, startIndex, answers[0]), reqs[1..], answers[1..], fetched)
  }

  lemma TraceCons(w: DateWindow, q: Query, startIndex: int, a: Response,
                  reqs: seq<Request>, answers: seq<Response>, fetched: int)
    requires Continues(q, startIndex, a)
    requires RangeTrace(w, q, NextIndex(q, startIndex, a), reqs, answers, fetched)
    ensures RangeTrace(w, q, startIndex, [RequestFor(w, q, startIndex)] + reqs, [a] + answers, fetched)
  {
    assert ([RequestFor(w, q, startIndex)] + reqs)[1..] == reqs;
    assert ([a] + answers)[1..] == answers;
  }

  lemma TraceOne(w: DateWindow, q: Query, startIndex: int, a: Response, fetched: int)
    requires Stops(q, startIndex, a, fetched)
    ensures RangeTrace(w, q, startIndex, [RequestFor(w, q, startIndex)], [a], fetched)
  { }

  /** Every request of a trace carries the window's dates and the query's page size and severity. */
  lemma {:induction false} TraceRequests(w: DateWindow, q: Query, startIndex: int,
                                         reqs: seq<Request>, answers: seq<Response>, fetched: int)
    requires RangeTrace(w, q, startIndex, reqs, answers, fetched)
    decreases |reqs|
    ensures reqs[0].startIndex == startIndex
    ensures forall k :: 0 <= k < |reqs| ==> reqs[k] == RequestFor(w, q, reqs[k].startIndex)
  {
    if |reqs| > 1 {
      var next := NextIndex(q, startIndex, answers[0]);
      TraceRequests(w, q, next, reqs[1..], answers[1..], fetched);
      forall k | 1 <= k < |reqs| ensures reqs[k] == RequestFor(w, q, reqs[k].startIndex) {
        assert reqs[k] == reqs[1..][k - 1];
      }
    }
  }

  /**
   * `r` ends a window's conversation begun in `st` at `startIndex`: it sent
   * at least one more request, and the requests it added, with the
   * responses the script gave them, make a trace of the window.
   */
  predicate WindowTrace(w: DateWindow, q: Query, startIndex: int, st: FetchState, r: FetchState) {
    && |r.sent| > |st.sent|
    && RangeTrace(w, q, startIndex, r.sent[|st.sent|..], Answers(st.pending, |r.sent| - |st.sent|), r.fetched)
  }

  /** The whole conversation one window holds with the service, read off the script. */
  lemma {:induction false} RangeLoopTrace(w: DateWindow, q: Query, startIndex: int, st: FetchState)
    decreases |st.pending|, 1
    ensures WindowTrace(w, q, startIndex, st, RangeLoop(w, q, startIndex, st))
  {
    if RangePass(w, q, startIndex, st).Done? {
      DoneTrace(w, q, startIndex, st);
    } else {
      AgainTrace(w, q, startIndex, st);
    }
  }

  /** `RangeLoopTrace` when the first pass ends the loop. */
  lemma DoneTrace(w: DateWindow, q: Query, startIndex: int, st: FetchState)
    requires RangePass(w, q, startIndex, st).Done?
    ensures WindowTrace(w, q, startIndex, st, RangeLoop(w, q, startIndex, st))
  {
    var r := RangeLoop(w, q, startIndex, st);
    var p := RangePass(w, q, startIndex, st);
    var a := Serve(st.pending).0;
    var request := RequestFor(w, q, startIndex);
    RangePassSent(w, q, startIndex, st);
    RangePassAnswer(w, q, startIndex, st);
    assert r == p.st;
    assert r.sent[|st.sent|..] == [request];
    assert Answers(st.pending, 1) == [a];
    TraceOne(w, q, startIndex, a, r.fetched);
  }

  /** `RangeLoopTrace` when the first pass goes round again. */
  lemma {:induction false} AgainTrace(w: DateWindow, q: Query, startIndex: int, st: FetchState)
    requires RangePass(w, q, startIndex, st).Again?
    decreases |st.pending|, 0
    ensures WindowTrace(w, q, startIndex, st, RangeLoop(w, q, startIndex, st))
  {
    var r := RangeLoop(w, q, startIndex, st);
    var p := RangePass(w, q, startIndex, st);
    RangePassSent(w, q, startIndex, st);
    RangePassAnswer(w, q, startIndex, st);
    assert r == RangeLoop(w, q, p.startIndex, p.st);
    RangeLoopTrace(w, q, p.startIndex, p.st);
    RangeLoopSent(w, q, p.startIndex, p.st);
    TraceExtend(w, q, startIndex, st, p.startIndex, p.st, r);
  }

  /**
   * The step of `RangeLoopTrace` where the loop goes round again: the
   * conversation from the next request on, preceded by this request and
   * its answer.
   */
  lemma TraceExtend(w: DateWindow, q: Query, startIndex: int, st: FetchState, next: int, mid: FetchState, r: FetchState)
    requires Continues(q, startIndex, Serve(st.pending).0) && next == NextIndex(q, startIndex, Serve(st.pending).0)
    requires mid.sent == st.sent + [RequestFor(w, q, startIndex)] && mid.pending == Serve(st.pending).1
    requires WindowTrace(w, q, next, mid, r) && r.sent == mid.sent + r.sent[|mid.sent|..]
    ensures WindowTrace(w, q, startIndex, st, r)
  {
    var n := |r.sent| - |st.sent|;
    var tail := r.sent[|mid.sent|..];
    var ans := Answers(mid.pending, n - 1);
    assert Answers(st.pending, n) == [Serve(st.pending).0] + ans;
    SentAfter(st.sent, mid.sent, r.sent, RequestFor(w, q, startIndex));
    TraceCons(w, q, startIndex, Serve(st.pending).0, tail, ans, r.fetched);
  }

  /** The requests after `before` are the one request `mid` added, then those added after `mid`. */
  lemma SentAfter(before: seq<Request>, mid: seq<Request>, after: seq<Request>, request: Request)
    requires mid == before + [request] && |after| >= |mid| && after == mid + after[|mid|..]
    ensures after[|before|..] == [request] + after[|mid|..]
  {
    assert after == before + ([request] + after[|mid|..]);
  }

  /** The requests one window sends extend the ones sent before. */
  lemma RangeLoopSent(w: DateWindow, q: Query, startIndex: int, st: FetchState)
    ensures var r := RangeLoop(w, q, startIndex, st);
      |r.sent| > |st.sent| && r.sent == st.sent + r.sent[|st.sent|..]
  {
    var r := RangeLoop(w, q, startIndex, st);
    RangeLoopFacts(w, q, startIndex, st);
    PrefixSplit(st.sent, r.sent);
  }

  lemma PrefixSplit<T>(a: seq<T>, b: seq<T>)
    requires |b| >= |a| && b[..|a|] == a
    ensures b == a + b[|a|..]
  {
    assert b == b[..|a|] + b[|a|..];
  }

  /** In a window's trace only the last answer can be a transport error. */
  lemma {:induction false} TraceFailures(w: DateWindow, q: Query, startIndex: int,
                                         reqs: seq<Request>, answers: seq<Response>, fetched: int)
    requires RangeTrace(w, q, startIndex, reqs, answers, fetched)
    decreases |reqs|
    ensures Failures(answers) == if answers[|answers| - 1].TransportError? then 1 else 0
  {
    assert answers == [answers[0]] + answers[1..];
    FailuresCons(answers[0], answers[1..]);
    if |reqs| == 1 {
      assert answers[1..] == [];
    } else {
      assert !answers[0].TransportError?;
      TraceFailures(w, q, NextIndex(q, startIndex, answers[0]), reqs[1..], answers[1..], fetched);
      assert answers[1..][|answers| - 2] == answers[|answers| - 1];
    }
  }

  /**
   * A window adds exactly one error when its conversation ends on a
   * transport error, and none otherwise.
   */
  lemma WindowErrors(w: DateWindow, q: Query, startIndex: int, st: FetchState)
    ensures var r := RangeLoop(w, q, startIndex, st);
      var n := |r.sent| - |st.sent|;
      n > 0 && r.errors == st.errors + (if Answers(st.pending, n)[n - 1].TransportError? then 1 else 0)
  {
    var r := RangeLoop(w, q, startIndex, st);
    var n := |r.sent| - |st.sent|;
    RangeLoopFailures(w, q, startIndex, st);
    RangeLoopTrace(w, q, startIndex, st);
    var answers := Answers(st.pending, n);
    assert n > 0 && RangeTrace(w, q, startIndex, r.sent[|st.sent|..], answers, r.fetched);
    TraceFailures(w, q, startIndex, r.sent[|st.sent|..], answers, r.fetched);
    assert r.errors == st.errors + Failures(answers);
  }

  /**
   * All windows: the state is extended, each window adds at most one
   * error and the errors are exactly the transport errors answered, a
   * positive cap is never overshot, and once the cap is reached no further
   * window is queried.
   */
  lemma {:induction false} FetchRangesFacts(ranges: seq<DateWindow>, q: Query, st: FetchState)
    ensures var r := FetchRanges(ranges, q, st);
      && Extends(st, r) && r.errors <= st.errors + |ranges|
      && (PositiveCap(q.maxResults) && st.fetched <= q.maxResults.value ==> r.fetched <= q.maxResults.value)
      && (Capped(q.maxResults, st.fetched) ==> r == st)
  {
    if ranges == [] || Capped(q.maxResults, st.fetched) {
      ExtendsRefl(st);
    } else {
      var st' := RangeLoop(ranges[0], q, 0, st);
      RangeLoopFacts(ranges[0], q, 0, st);
      FetchRangesFacts(ranges[1..], q, st');
      ExtendsTrans(st, st', FetchRanges(ranges[1..], q, st'));
    }
  }

  /**
   * All windows: the errors counted are exactly the transport errors among
   * the answers read, whichever windows they ended.
   */
  lemma {:induction false} FetchRangesFailures(ranges: seq<DateWindow>, q: Query, st: FetchState)
    ensures CountsFailures(st, FetchRanges(ranges, q, st))
  {
    var r := FetchRanges(ranges, q, st);
    if ranges == [] || Capped(q.maxResults, st.fetched) {
      assert r == st && Answers(st.pending, 0) == [];
    } else {
      var st' := RangeLoop(ranges[0], q, 0, st);
      assert r == FetchRanges(ranges[1..], q, st');
      FetchRangesFacts(ranges[1..], q, st');
      FetchRangesFailures(ranges[1..], q, st');
      WindowThenRest(ranges[0], q, st, r);
    }
  }

  /** One window's errors, then those of the windows after it. */
  lemma WindowThenRest(w: DateWindow, q: Query, st: FetchState, r: FetchState)
    requires Extends(RangeLoop(w, q, 0, st), r) && CountsFailures(RangeLoop(w, q, 0, st), r)
    ensures CountsFailures(st, r)
  {
    var mid := RangeLoop(w, q, 0, st);
    RangeLoopFacts(w, q, 0, st);
    FetchRangesErrors(st, mid, r);
  }

  /** The errors of two stretches of the conversation add up. */
  lemma FetchRangesErrors(st: FetchState, mid: FetchState, r: FetchState)
    requires Extends(st, mid) && Extends(mid, r)
    requires CountsFailures(st, mid) && CountsFailures(mid, r)
    ensures CountsFailures(st, r)
  {
    var m := |mid.sent| - |st.sent|;
    var n := |r.sent| - |mid.sent|;
    AnswersSplit(st.pending, m, n);
    FailuresConcat(Answers(st.pending, m), Answers(mid.pending, n));
  }

  lemma DropDrop(pending: seq<Response>, m: nat, n: nat)
    ensures Drop(Drop(pending, m), n) == Drop(pending, m + n)
  {
    if m + n <= |pending| {
      assert pending[m..][n..] == pending[m + n..];
    }
  }

  /**
   * The requests sent carry, in order, the windows they were sent for:
   * `idx[k]` is the window of the `k`-th request, and it never goes back.
   */
  predicate WindowsInOrder(ranges: seq<DateWindow>, q: Query, reqs: seq<Request>, idx: seq<int>) {
    && |idx| == |reqs|
    && (forall k :: 0 <= k < |reqs| ==>
          0 <= idx[k] < |ranges| && reqs[k] == RequestFor(ranges[idx[k]], q, reqs[k].startIndex))
    && (forall k :: 0 <= k < |idx| - 1 ==> idx[k] <= idx[k + 1])
  }

  /** Every request one window sends carries that window's dates. */
  lemma WindowRequests(w: DateWindow, q: Query, startIndex: int, st: FetchState)
    ensures var r := RangeLoop(w, q, startIndex, st);
      && |r.sent| > |st.sent| && r.sent == st.sent + r.sent[|st.sent|..]
      && forall k :: 0 <= k < |r.sent| - |st.sent| ==>
           r.sent[|st.sent|..][k] == RequestFor(w, q, r.sent[|st.sent|..][k].startIndex)
  {
    var r := RangeLoop(w, q, startIndex, st);
    RangeLoopTrace(w, q, startIndex, st);
    RangeLoopSent(w, q, startIndex, st);
    TraceRequests(w, q, startIndex, r.sent[|st.sent|..], Answers(st.pending, |r.sent| - |st.sent|), r.fetched);
  }

  /** The requests of all windows extend the ones sent before. */
  lemma FetchRangesSent(ranges: seq<DateWindow>, q: Query, st: FetchState)
    ensures var r := FetchRanges(ranges, q, st);
      |r.sent| >= |st.sent| && r.sent == st.sent + r.sent[|st.sent|..]
  {
    var r := FetchRanges(ranges, q, st);
    FetchRangesFacts(ranges, q, st);
    PrefixSplit(st.sent, r.sent);
  }

  /** Requests of the first window followed by requests in order for the later windows are in order. */
  lemma WindowsInOrderCons(ranges: seq<DateWindow>, q: Query, a: seq<Request>, b: seq<Request>, idx': seq<int>)
    requires |ranges| > 0
    requires forall k :: 0 <= k < |a| ==> a[k] == RequestFor(ranges[0], q, a[k].startIndex)
    requires WindowsInOrder(ranges[1..], q, b, idx')
    ensures WindowsInOrder(ranges, q, a + b, seq(|a|, k => 0) + seq(|b|, k requires 0 <= k < |b| => idx'[k] + 1))
  {
    var idx := seq(|a|, k => 0) + seq(|b|, k requires 0 <= k < |b| => idx'[k] + 1);
    forall k | 0 <= k < |a| + |b|
      ensures 0 <= idx[k] < |ranges| && (a + b)[k] == RequestFor(ranges[idx[k]], q, (a + b)[k].startIndex)
    {
      if k >= |a| {
        assert (a + b)[k] == b[k - |a|] && idx[k] == idx'[k - |a|] + 1;
        assert ranges[1..][idx'[k - |a|]] == ranges[idx[k]];
      } else {
        assert (a + b)[k] == a[k] && idx[k] == 0;
      }
    }
  }

  lemma {:induction false} FetchRangesInOrder(ranges: seq<DateWindow>, q: Query, st: FetchState)
    ensures var r := FetchRanges(ranges, q, st);
      |r.sent| >= |st.sent| && exists idx :: WindowsInOrder(ranges, q, r.sent[|st.sent|..], idx)
  {
    var r := FetchRanges(ranges, q, st);
    FetchRangesSent(ranges, q, st);
    if ranges == [] || Capped(q.maxResults, st.fetched) {
      assert WindowsInOrder(ranges, q, r.sent[|st.sent|..], []);
    } else {
      var st' := RangeLoop(ranges[0], q, 0, st);
      assert r == FetchRanges(ranges[1..], q, st');
      WindowRequests(ranges[0], q, 0, st);
      FetchRangesInOrder(ranges[1..], q, st');
      FetchRangesSent(ranges[1..], q, st');
      var a := st'.sent[|st.sent|..];
      var b := r.sent[|st'.sent|..];
      var idx' :| WindowsInOrder(ranges[1..], q, b, idx');
      assert r.sent[|st.sent|..] == a + b;
      WindowsInOrderCons(ranges, q, a, b, idx');
    }
  }

  /**
   * Every window is tried, in order, whatever the earlier ones answered:
   * `starts[k]` is where window `k`'s conversation begins among `reqs`,
   * with a first request for offset 0; a window left untried was cut off
   * by the cap.
   */
  predicate WindowsTried(ranges: seq<DateWindow>, q: Query, reqs: seq<Request>, starts: seq<int>, capped: bool) {
    && |starts| <= |ranges|
    && (|starts| < |ranges| ==> capped)
    && (forall k :: 0 <= k < |starts| ==> 0 <= starts[k] < |reqs| && reqs[starts[k]] == RequestFor(ranges[k], q, 0))
    && (forall k :: 0 <= k < |starts| - 1 ==> starts[k] < starts[k + 1])
  }

  /** The first window's requests, then those of the windows after it. */
  lemma WindowsTriedCons(ranges: seq<DateWindow>, q: Query, a: seq<Request>, b: seq<Request>, starts': seq<int>, capped: bool)
    requires |ranges| > 0 && |a| > 0 && a[0] == RequestFor(ranges[0], q, 0)
    requires WindowsTried(ranges[1..], q, b, starts', capped)
    ensures WindowsTried(ranges, q, a + b, [0] + seq(|starts'|, k requires 0 <= k < |starts'| => starts'[k] + |a|), capped)
  {
    var shifted := seq(|starts'|, k requires 0 <= k < |starts'| => starts'[k] + |a|);
    var starts := [0] + shifted;
    assert |starts| == |starts'| + 1;
    forall k | 0 <= k < |starts|
      ensures 0 <= starts[k] < |a + b| && (a + b)[starts[k]] == RequestFor(ranges[k], q, 0)
    {
      if k == 0 {
        assert (a + b)[0] == a[0];
      } else {
        var i := starts'[k - 1];
        assert starts[k] == shifted[k - 1] == i + |a|;
        assert (a + b)[i + |a|] == b[i];
        assert ranges[1..][k - 1] == ranges[k];
      }
    }
    ShiftedIncreasing(starts', |a|);
  }

  /** Positions shifted past a non-empty first part, after that part's own start, still increase. */
  lemma ShiftedIncreasing(starts': seq<int>, n: int)
    requires n > 0 && (forall k :: 0 <= k < |starts'| ==> 0 <= starts'[k])
    requires forall k :: 0 <= k < |starts'| - 1 ==> starts'[k] < starts'[k + 1]
    ensures var starts := [0] + seq(|starts'|, k requires 0 <= k < |starts'| => starts'[k] + n);
      forall k :: 0 <= k < |starts| - 1 ==> starts[k] < starts[k + 1]
  {
    var shifted := seq(|starts'|, k requires 0 <= k < |starts'| => starts'[k] + n);
    var starts := [0] + shifted;
    forall k | 0 <= k < |starts| - 1 ensures starts[k] < starts[k + 1] {
      assert starts[k + 1] == shifted[k] == starts'[k] + n;
      if k > 0 {
        assert starts[k] == shifted[k - 1] == starts'[k - 1] + n;
      }
    }
  }

  /** A window's conversation opens with its request for `startIndex`. */
  lemma WindowFirstRequest(w: DateWindow, q: Query, startIndex: int, st: FetchState)
    ensures var r := RangeLoop(w, q, startIndex, st);
      && |r.sent| > |st.sent| && r.sent == st.sent + r.sent[|st.sent|..]
      && r.sent[|st.sent|] == RequestFor(w, q, startIndex)
  {
    var r := RangeLoop(w, q, startIndex, st);
    RangeLoopTrace(w, q, startIndex, st);
    RangeLoopSent(w, q, startIndex, st);
    assert r.sent[|st.sent|] == r.sent[|st.sent|..][0];
  }

  /** The windows' conversations: each window is entered with a request for offset 0 until the cap is reached. */
  lemma {:induction false} FetchRangesTried(ranges: seq<DateWindow>, q: Query, st: FetchState)
    ensures var r := FetchRanges(ranges, q, st);
      |r.sent| >= |st.sent| && exists starts :: WindowsTried(ranges, q, r.sent[|st.sent|..], starts, Capped(q.maxResults, r.fetched))
  {
    var r := FetchRanges(ranges, q, st);
    FetchRangesSent(ranges, q, st);
    if ranges == [] || Capped(q.maxResults, st.fetched) {
      FetchRangesFacts(ranges, q, st);
      assert WindowsTried(ranges, q, r.sent[|st.sent|..], [], Capped(q.maxResults, r.fetched));
    } else {
      var st' := RangeLoop(ranges[0], q, 0, st);
      assert r == FetchRanges(ranges[1..], q, st');
      WindowFirstRequest(ranges[0], q, 0, st);
      FetchRangesTried(ranges[1..], q, st');
      FetchRangesSent(ranges[1..], q, st');
      TriedStep(ranges, q, st.sent, st'.sent, r.sent, Capped(q.maxResults, r.fetched));
    }
  }

  /** `FetchRangesTried` for a first window that sent `mid` after `before`, the later ones `after` after that. */
  lemma TriedStep(ranges: seq<DateWindow>, q: Query, before: seq<Request>, mid: seq<Request>, after: seq<Request>, capped: bool)
    requires |ranges| > 0
    requires |mid| > |before| && mid == before + mid[|before|..] && mid[|before|] == RequestFor(ranges[0], q, 0)
    requires |after| >= |mid| && after == mid + after[|mid|..]
    requires exists starts :: WindowsTried(ranges[1..], q, after[|mid|..], starts, capped)
    ensures exists starts :: WindowsTried(ranges, q, after[|before|..], starts, capped)
  {
    var a := mid[|before|..];
    var b := after[|mid|..];
    var starts' :| WindowsTried(ranges[1..], q, b, starts', capped);
    assert after[|before|..] == a + b;
    assert a[0] == mid[|before|];
    WindowsTriedCons(ranges, q, a, b, starts', capped);
  }

  /**
   * One `fetch_cves` call: its list holds exactly the records it counted,
   * a positive cap bounds the running total, each of the (at most four)
   * windows adds at most one error and the errors are exactly the
   * transport errors answered, requests follow the windows in order, every
   * window is tried unless the cap was reached first,
   * and a scraper whose running total already reached the cap returns an
   * empty list without sending anything.
   */
  lemma FetchFacts(year: Option<int>, q: Query, st: FetchState)
    ensures var r := Fetch(year, q, st);
      && st.fetched <= r.fetched && |r.cves| == r.fetched - st.fetched
      && (PositiveCap(q.maxResults) && st.fetched <= q.maxResults.value ==> r.fetched <= q.maxResults.value)
      && r.errors <= st.errors + (if year.Some? && year.value != 0 then 4 else 1)
      && (Capped(q.maxResults, st.fetched) ==> r.cves == [] && r.sent == st.sent && r.pending == st.pending)
      && |r.sent| >= |st.sent| && r.sent[..|st.sent|] == st.sent
      && r.errors == st.errors + Failures(Answers(st.pending, |r.sent| - |st.sent|))
      && (exists idx :: WindowsInOrder(DateRanges(year), q, r.sent[|st.sent|..], idx))
      && (exists starts :: WindowsTried(DateRanges(year), q, r.sent[|st.sent|..], starts, Capped(q.maxResults, r.fetched)))
  {
    FetchRangesFacts(DateRanges(year), q, st.(cves := []));
    FetchRangesFailures(DateRanges(year), q, st.(cves := []));
    assert CountsFailures(st.(cves := []), Fetch(year, q, st));
    FetchRangesInOrder(DateRanges(year), q, st.(cves := []));
    FetchRangesTried(DateRanges(year), q, st.(cves := []));
  }

  // ---------------------------------------------------------------------
  // The scraper object
  // ---------------------------------------------------------------------

  /**
   * The HTTP session, as the responses it will give (in order) and the
   * requests it has been sent.
   */
  class NvdSession {
    var pending: seq<Response>
    var sent: seq<Request>

    constructor (script: seq<Response>)
      ensures pending == script && sent == []
    {
      pending := script;
      sent := [];
    }

    /** `session.get(BASE_URL, params=..., timeout=30)`, with status and JSON decoding folded into the answer. */
    method Get(request: Request) returns (response: Response)
      modifies this
      ensures (response, pending) == Serve(old(pending))
      ensures sent == old(sent) + [request]
    {
      sent := sent + [request];
      if pending == [] {
        response := TransportError;
      } else {
        response := pending[0];
        pending := pending[1..];
      }
    }
  }

  /** `CVEScraper`: the `stats` counters and the session (the output directory is not modelled). */
  class CveScraper {
    var totalFetched: nat
    var totalSaved: nat
    var errors: nat
    const session: NvdSession

    constructor (script: seq<Response>)
      ensures totalFetched == 0 && totalSaved == 0 && errors == 0
      ensures fresh(session) && session.pending == script && session.sent == []
    {
      totalFetched := 0;
      totalSaved := 0;
      errors := 0;
      session := new NvdSession(script);
    }

    /** The part of the object the fetch loop works on, with `cves` the list being built. */
    function State(cves: seq<CveRecord>): FetchState
      reads this, session
    {
      FetchState(cves, totalFetched, errors, session.pending, session.sent)
    }

    /** `fetch_cves`: returns the list and leaves the counters and the session as `Fetch` says. */
    method FetchCves(year: Option<int>, severity: Option<string>, resultsPerPage: int, maxResults: Option<int>)
      returns (cves: seq<CveRecord>)
      modifies this, session
      ensures var r := Fetch(year, Query(severity, resultsPerPage, maxResults), old(State([])));
        && cves == r.cves && State(cves) == r
      ensures totalSaved == old(totalSaved)
    {
      var q := Query(severity, resultsPerPage, maxResults);
      var dateRanges := DateRanges(year);
      cves := [];
      for i := 0 to |dateRanges|
        invariant FetchRanges(dateRanges[i..], q, State(cves)) == FetchRanges(dateRanges, q, old(State([])))
        invariant totalSaved == old(totalSaved)
      {
        if Capped(maxResults, totalFetched) {
          break;
        }
        assert dateRanges[i..][1..] == dateRanges[i + 1..];
        cves := FetchRange(cves, dateRanges[i], q);
      }
    }

    /** The `while True` loop for one date window. */
    method FetchRange(cves0: seq<CveRecord>, w: DateWindow, q: Query) returns (cves: seq<CveRecord>)
      modifies this, session
      ensures State(cves) == RangeLoop(w, q, 0, old(State(cves0)))
      ensures totalSaved == old(totalSaved)
    {
      cves := cves0;
      var startIndex := 0;
      while true
        invariant RangeLoop(w, q, startIndex, State(cves)) == RangeLoop(w, q, 0, old(State(cves0)))
        invariant totalSaved == old(totalSaved)
        decreases |session.pending|
      {
        ghost var before := State(cves);
        var next;
        cves, next := FetchPage(cves, w, q, startIndex);
        RangeLoopStep(w, q, startIndex, before);
        if next.None? {
          break;
        }
        startIndex := next.value;
      }
    }

    /**
     * One turn of the request loop: `next` is the start index of the turn
     * that follows, or `None` where the loop breaks.
     */
    method FetchPage(cves0: seq<CveRecord>, w: DateWindow, q: Query, startIndex: int)
      returns (cves: seq<CveRecord>, next: Option<int>)
      modifies this, session
      ensures var pass := RangePass(w, q, startIndex, old(State(cves0)));
        && State(cves) == pass.st
        && (if pass.Again? then next == Some(pass.startIndex) else next == None)
      ensures totalSaved == old(totalSaved)
    {
      cves := cves0;
      ghost var before := State(cves);
      ghost var pass := RangePass(w, q, startIndex, before);
      var request := RequestFor(w, q, startIndex);
      var response := session.Get(request);
      ghost var st1 := State(cves);
      assert response == Serve(before.pending).0;
      assert st1 == Requested(before, request);
      if response.RateLimited? {
        assert pass == Again(startIndex, State(cves));
        return cves, Some(startIndex);
      }
      if response.TransportError? {
        errors := errors + 1;
        assert State(cves) == Failed(st1);
        assert pass == Done(State(cves));
        return cves, None;
      }
      var vulnerabilities := response.vulnerabilities;
      if vulnerabilities == [] {
        assert pass == Done(State(cves));
        return cves, None;
      }
      cves := TakePage(cves, vulnerabilities, q.maxResults);
      PagePass(w, q, startIndex, before);
      ghost var st2 := State(cves);
      assert st2 == TakeRecords(Projections(vulnerabilities), q.maxResults, st1);
      if Capped(q.maxResults, totalFetched) {
        return cves, None;
      }
      if startIndex + q.resultsPerPage >= response.totalResults {
        return cves, None;
      }
      next := Some(startIndex + q.resultsPerPage);
    }

    /** The loop over one page's `vulnerabilities`. */
    method TakePage(cves0: seq<CveRecord>, vulnerabilities: seq<Json>, maxResults: Option<int>)
      returns (cves: seq<CveRecord>)
      modifies this`totalFetched
      ensures State(cves) == TakeRecords(Projections(vulnerabilities), maxResults, old(State(cves0)))
    {
      cves := cves0;
      ghost var cs := Projections(vulnerabilities);
      for i := 0 to |vulnerabilities|
        invariant TakeRecords(cs[i..], maxResults, State(cves)) == TakeRecords(cs, maxResults, old(State(cves0)))
      {
        ghost var before := State(cves);
        var cveData := ProcessCve(vulnerabilities[i]);
        assert cveData == cs[i];
        if cveData.Some? {
          cves := cves + [cveData.value];
          totalFetched := totalFetched + 1;
        }
        assert State(cves) == Appended(before, cs[i]);
        TakeRecordsStep(cs, i, maxResults, before);
        if Capped(maxResults, totalFetched) {
          break;
        }
      }
    }
  }
}
