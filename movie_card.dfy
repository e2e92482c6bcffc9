/** The movie card: the fields it takes from a movie record, the defaults it
    puts in for fields that are missing, and the strings it shows. */
module MovieCard {
  import opened Js

  const NoTitle := "No title available"
  const NotAvailable := "N/A"
  const DefaultLanguage := "EN"
  /** The placeholder image shown when a movie has no poster. */
  const NoPoster := "/no-movie.png"

  /** The five values the card reads from its movie, after defaulting. */
  datatype Fields = Fields(title: string, poster: string, year: string, rating: string, language: string)

  /** What the card displays. */
  datatype Card = Card(imageSrc: string, imageAlt: string, title: string, rating: string, language: string, year: string)

  /** A property of the movie, or `default` when it reads as `undefined`
      (a destructuring default). */
  function FieldOr(o: JsObject, key: string, default: string): string {
    match Get(o, key)
    case Some(v) => v
    case None => default
  }

  /** The destructuring of `movie || {}`: a missing movie behaves like an
      object with no properties, and each missing property gets its default. */
  function Destructure(movie: Option<JsObject>): (f: Fields)
    ensures movie.None? ==> f == Fields(NoTitle, NotAvailable, NotAvailable, NotAvailable, DefaultLanguage)
    ensures movie.Some? ==>
      && (Get(movie.value, "Title").Some? ==> Get(movie.value, "Title") == Some(f.title))
      && (Get(movie.value, "Title").None? ==> f.title == NoTitle)
      && (Get(movie.value, "Poster").Some? ==> Get(movie.value, "Poster") == Some(f.poster))
      && (Get(movie.value, "Poster").None? ==> f.poster == NotAvailable)
      && (Get(movie.value, "Year").Some? ==> Get(movie.value, "Year") == Some(f.year))
      && (Get(movie.value, "Year").None? ==> f.year == NotAvailable)
      && (Get(movie.value, "imdbRating").Some? ==> Get(movie.value, "imdbRating") == Some(f.rating))
      && (Get(movie.value, "imdbRating").None? ==> f.rating == NotAvailable)
      && (Get(movie.value, "Language").Some? ==> Get(movie.value, "Language") == Some(f.language))
      && (Get(movie.value, "Language").None? ==> f.language == DefaultLanguage)
  {
    var o := match movie case Some(m) => m case None => map[];
    Fields(
      FieldOr(o, "Title", NoTitle),
      FieldOr(o, "Poster", NotAvailable),
      FieldOr(o, "Year", NotAvailable),
      FieldOr(o, "imdbRating", NotAvailable),
      FieldOr(o, "Language", DefaultLanguage))
  }

  /** The card for a movie. The image shows the poster unless the poster is
      the "N/A" sentinel; the title doubles as the image's alt text; the
      rating is shown as it is ("N/A" included); the language is shown up to
      its first comma. */
  function Render(movie: Option<JsObject>): (c: Card)
    ensures var f := Destructure(movie);
      && (c.imageSrc == f.poster <==> f.poster != NotAvailable)
      && (c.imageSrc != f.poster ==> c.imageSrc == NoPoster)
      && c.imageSrc != NotAvailable
      && c.imageAlt == c.title == f.title
      && c.rating == f.rating
      && c.year == f.year
      && |c.language| <= |f.language| && c.language == f.language[..|c.language|]
      && !Contains(c.language, ",")
      && (c.language == f.language || OccursAt(f.language, ",", |c.language|))
      && (c.language == f.language <==> !Contains(f.language, ","))
  {
    var f := Destructure(movie);
    Card(
      if f.poster != NotAvailable then f.poster else NoPoster,
      f.title,
      f.title,
      if f.rating == NotAvailable then NotAvailable else f.rating,
      SplitFirst(f.language, ","),
      f.year)
  }

  /** A card whose movie names several languages shows the first one. */
  lemma LanguageOfList()
    ensures Render(Some(map["Language" := Some("French,English")])).language == "French"
  {
    var v := "French,English";
    assert Destructure(Some(map["Language" := Some(v)])).language == v;
    assert Contains(v, ",") by { assert v[6..7] == ","; assert OccursAt(v, ",", 6); }
    forall j | 0 <= j < |v| && j != 6 ensures !OccursAt(v, ",", j) {
      NotAt(v, ",", j);
    }
    var c := Render(Some(map["Language" := Some(v)]));
    assert c.language != v;
    assert |c.language| == 6;
    assert c.language == v[..6];
  }
}
