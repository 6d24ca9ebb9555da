/**
 * The "top tours" alias: a middleware that presets the list parameters
 * (five best-rated tours, cheapest first among equals, a short projection)
 * before the ordinary tour listing runs.
 */
module TourMiddleware {
  import opened Js
  import opened Http
  import opened APIFeatures

  const TopLimit := "5"
  /** The sort list "-ratingsAverage,price" and the projection list
      "name,price,ratingsAverage,summary,difficulty", item by item. */
  const TopSort := "-ratingsAverage" + "," + "price"
  const TopFields := "name" + "," + "price" + "," + "ratingsAverage" + "," + "summary" + "," + "difficulty"

  /** The parameters after the alias: `limit`, `sort` and `field` are
      overwritten whatever the caller sent, every other key is kept. */
  function TopToursPreset(q: map<string, QueryValue>): (r: map<string, QueryValue>)
    ensures r.Keys == q.Keys + {"limit", "sort", "field"}
    ensures forall k :: k in q && k !in {"limit", "sort", "field"} ==> r[k] == q[k]
  {
    q["limit" := QStr(TopLimit)]["sort" := QStr(TopSort)]["field" := QStr(TopFields)]
  }

  lemma FiveParses()
    ensures ParseInt(TopLimit) == Num(5)
  {
    assert DecimalText(5) == "5";
    ParseIntDecimalText(5);
  }

  lemma PresetKeepsPage(q: map<string, QueryValue>)
    ensures PageOf(TopToursPreset(q)) == PageOf(q)
  {
    var r := TopToursPreset(q);
    assert "page" in r <==> "page" in q;
    assert "page" in q ==> r["page"] == q["page"];
  }

  /** After the alias the builder takes the first five documents of the
      caller's page: the window is [5 * (page - 1), 5 * page). */
  lemma TopToursWindow(q: map<string, QueryValue>)
    ensures LimitOf(TopToursPreset(q)) == Num(5)
    ensures PageOf(TopToursPreset(q)) == PageOf(q)
    ensures PageOf(q).Num? ==> SkipOf(TopToursPreset(q)) == Num(5 * (PageOf(q).n - 1))
  {
    var r := TopToursPreset(q);
    assert "limit" in r && r["limit"] == QStr(TopLimit);
    FiveParses();
    TextParam(r, "limit", 100, TopLimit);
    PresetKeepsPage(q);
    if PageOf(q).Num? {
      SkipWindow(r, PageOf(q).n, 5);
    }
  }

  /** Replacing the commas of a list one item at a time, from the end. */
  lemma CommaStep(init: string, last: string)
    requires ',' !in last
    ensures ReplaceChar(init + "," + last, ',', ' ') == ReplaceChar(init, ',', ' ') + " " + last
  {
    ReplaceCharConcat(init + ",", last, ',', ' ');
    ReplaceCharConcat(init, ",", ',', ' ');
    ReplaceCharAbsent(last, ',', ' ');
  }

  lemma CommaTwo(s: string, a: string, b: string)
    requires ',' !in a && ',' !in b
    requires s == a + "," + b
    ensures ReplaceChar(s, ',', ' ') == a + " " + b
  {
    CommaStep(a, b);
    ReplaceCharAbsent(a, ',', ' ');
  }

  lemma CommaFive(s: string, a: string, b: string, c: string, d: string, e: string)
    requires ',' !in a && ',' !in b && ',' !in c && ',' !in d && ',' !in e
    requires s == a + "," + b + "," + c + "," + d + "," + e
    ensures ReplaceChar(s, ',', ' ') == a + " " + b + " " + c + " " + d + " " + e
  {
    CommaStep(a + "," + b + "," + c + "," + d, e);
    CommaStep(a + "," + b + "," + c, d);
    CommaStep(a + "," + b, c);
    CommaStep(a, b);
    ReplaceCharAbsent(a, ',', ' ');
  }

  /** Best rated first, then cheapest. */
  lemma TopToursSort(q: map<string, QueryValue>)
    ensures SortSpec(TopToursPreset(q)) == Ok("-ratingsAverage price")
  {
    var r := TopToursPreset(q);
    assert r["sort"] == QStr(TopSort);
    SortItems();
    CommaTwo(r["sort"].s, "-ratingsAverage", "price");
  }

  lemma SortItems()
    ensures ',' !in "-ratingsAverage" && ',' !in "price"
    ensures "-ratingsAverage" + " " + "price" == "-ratingsAverage price"
  {
  }

  lemma ProjectionText()
    ensures "name" + " " + "price" + " " + "ratingsAverage" + " " + "summary" + " " + "difficulty"
         == "name price ratingsAverage summary difficulty"
  {
  }

  /** The five fields of the short projection. */
  lemma TopToursProjection(q: map<string, QueryValue>)
    ensures Projection(TopToursPreset(q)) == Ok("name price ratingsAverage summary difficulty")
  {
    var r := TopToursPreset(q);
    assert r["field"] == QStr(TopFields);
    assert ',' !in "name" && ',' !in "price" && ',' !in "ratingsAverage" && ',' !in "summary" && ',' !in "difficulty";
    CommaFive(r["field"].s, "name", "price", "ratingsAverage", "summary", "difficulty");
    ProjectionText();
  }

  /** The caller's filters are untouched. */
  lemma TopToursFilter(q: map<string, QueryValue>)
    ensures FilterConditions(TopToursPreset(q)) == FilterConditions(q)
  {
    assert TopToursPreset(q) - Reserved() == q - Reserved();
  }

  /** `aliasTopTours`: rewrites the three parameters in place and always
      hands over with `next()`. */
  method AliasTopTours(req: Request) returns (n: Next)
    modifies req
    ensures n == Continue
    ensures req.query == TopToursPreset(old(req.query))
    ensures req.cookies == old(req.cookies) && req.params == old(req.params) && req.user == old(req.user)
  {
    req.query := req.query["limit" := QStr(TopLimit)];
    req.query := req.query["sort" := QStr(TopSort)];
    req.query := req.query["field" := QStr(TopFields)];
    return Continue;
  }
}
