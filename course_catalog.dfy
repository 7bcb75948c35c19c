/** The course catalog of CourseService.getCourses: five constant course
    summaries and the conjunctive filter over them. */
module CourseCatalog {
  import opened Common

  /** One catalog entry. `rating` is kept in tenths (4.9 is 49). */
  datatype Course = Course(
    id: string,
    title: string,
    description: string,
    instructor: string,
    thumbnail: string,
    duration: string,
    modules: nat,
    lessons: nat,
    level: string,
    category: string,
    tags: seq<string>,
    ratingTenths: nat,
    enrollments: nat,
    featured: bool,
    releaseDate: string)

  /** The caller's filter object. A missing key is `None`; a key whose value
      is falsy (`""`, `false`) constrains nothing, exactly like a missing one. */
  datatype Filters = Filters(
    category: Option<string>,
    level: Option<string>,
    featured: Option<bool>,
    search: Option<string>)

  /** `if (filters.x)` on a string-valued key. */
  predicate Truthy(s: Option<string>) {
    s.Some? && s.value != ""
  }

  /** The catalog as getCourses declares it, entry by entry. */
  function CatalogEntry(i: nat): Course
    requires i < 5
  {
    if i == 0 then
      Course("course-001", "Escatologia Fundamental",
        "Uma introdução abrangente aos estudos escatológicos, explorando as profecias bíblicas sobre os últimos dias.",
        "Eric Alberto da Cruz", "/assets/images/courses/escatologia-fundamental.jpg", "12 horas",
        8, 24, "iniciante", "escatologia", ["profecias", "apocalipse", "daniel", "últimos dias"],
        49, 1250, true, "2025-01-15")
    else if i == 1 then
      Course("course-002", "Inteligência Artificial e o Falso Profeta",
        "Análise profunda das implicações proféticas do desenvolvimento da inteligência artificial e sua possível relação com as profecias sobre o falso profeta.",
        "Lucas Mendonça", "/assets/images/courses/ia-falso-profeta.jpg", "8 horas",
        6, 18, "intermediário", "tecnologia", ["inteligência artificial", "falso profeta", "tecnologia", "marca da besta"],
        48, 980, true, "2025-02-20")
    else if i == 2 then
      Course("course-003", "Geopolítica Profética: Nações nos Últimos Dias",
        "Estudo detalhado sobre o papel das nações modernas no contexto das profecias bíblicas, com foco em Israel, Rússia, China e Estados Unidos.",
        "Prof. Marcos Almeida", "/assets/images/courses/geopolitica-profetica.jpg", "10 horas",
        7, 21, "avançado", "geopolítica", ["israel", "nações", "guerras", "alianças", "oriente médio"],
        47, 850, false, "2025-03-10")
    else if i == 3 then
      Course("course-004", "Preparação Estratégica para Tempos Difíceis",
        "Guia prático para preparação espiritual, emocional e material para os desafios dos últimos dias, com estratégias concretas de resiliência.",
        "Eric Alberto da Cruz", "/assets/images/courses/preparacao-estrategica.jpg", "6 horas",
        5, 15, "todos", "preparação", ["resiliência", "sobrevivência", "comunidade", "autossuficiência"],
        49, 1500, true, "2025-04-05")
    else
      Course("course-005", "Batalha Cultural: Estratégias de Resistência",
        "Análise da guerra cultural contemporânea e desenvolvimento de estratégias eficazes para resistir à desconstrução de valores bíblicos na sociedade.",
        "Dra. Raquel Oliveira", "/assets/images/courses/batalha-cultural.jpg", "9 horas",
        6, 18, "intermediário", "guerra cultural", ["resistência", "valores", "família", "educação", "mídia"],
        46, 720, false, "2025-02-28")
  }

  /** The five courses, in declaration order. */
  function Catalog(): (r: seq<Course>)
    ensures |r| == 5
  {
    seq(5, i requires 0 <= i < 5 => CatalogEntry(i))
  }

  // ---- the four filter steps, as the source chains them --------------------

  function CategoryStep(f: Filters): Course -> bool {
    (c: Course) => !Truthy(f.category) || c.category == f.category.value
  }

  function LevelStep(f: Filters): Course -> bool {
    (c: Course) => !Truthy(f.level) || c.level == f.level.value
  }

  function FeaturedStep(f: Filters): Course -> bool {
    (c: Course) => f.featured != Some(true) || c.featured
  }

  /** The search step: the lower-cased term occurs in the lower-cased title,
      description or some lower-cased tag. */
  function SearchStep(f: Filters): Course -> bool {
    (c: Course) => !Truthy(f.search) ||
         var term := Lower(f.search.value);
         Includes(Lower(c.title), term) || Includes(Lower(c.description), term) ||
         exists t :: t in c.tags && Includes(Lower(t), term)
  }

  /** The filter chain of getCourses over a list of courses: category,
      level, featured and search in turn; a falsy filter keeps everything. */
  function FilterCourses(courses: seq<Course>, f: Filters): (r: seq<Course>)
    ensures |r| <= |courses|
    ensures forall c :: c in r ==> c in courses
  {
    Filter(Filter(Filter(Filter(courses, CategoryStep(f)), LevelStep(f)), FeaturedStep(f)), SearchStep(f))
  }

  /** getCourses: the catalog through the filter chain. */
  function GetCourses(f: Filters): (r: seq<Course>)
    ensures forall c :: c in r ==> c in Catalog() && Matches(f, c)
    ensures forall c :: c in Catalog() && Matches(f, c) ==> c in r
  {
    FilterCoursesIsFilter(Catalog(), f);
    FilterCourses(Catalog(), f)
  }

  // ---- the reference definition and what the filter chain promises -------

  /** The search term, lower-cased, occurs in the lower-cased title, the
      lower-cased description or some lower-cased tag. */
  predicate MatchesSearch(c: Course, term: string) {
    Includes(Lower(c.title), Lower(term)) ||
    Includes(Lower(c.description), Lower(term)) ||
    exists i :: 0 <= i < |c.tags| && Includes(Lower(c.tags[i]), Lower(term))
  }

  /** A course meets every supplied, truthy filter. */
  predicate Matches(f: Filters, c: Course) {
    && (Truthy(f.category) ==> c.category == f.category.value)
    && (Truthy(f.level) ==> c.level == f.level.value)
    && (f.featured == Some(true) ==> c.featured)
    && (Truthy(f.search) ==> MatchesSearch(c, f.search.value))
  }

  lemma SearchStepMeaning(f: Filters, c: Course)
    ensures SearchStep(f)(c) <==> (Truthy(f.search) ==> MatchesSearch(c, f.search.value))
  {
    if Truthy(f.search) {
      var term := Lower(f.search.value);
      if exists t :: t in c.tags && Includes(Lower(t), term) {
        var t :| t in c.tags && Includes(Lower(t), term);
        var i :| 0 <= i < |c.tags| && c.tags[i] == t;
      }
    }
  }

  /** The chain's four steps together accept exactly what `Matches` accepts. */
  lemma StepsMeaning(f: Filters, c: Course)
    ensures (CategoryStep(f)(c) && LevelStep(f)(c) && FeaturedStep(f)(c) && SearchStep(f)(c))
            <==> Matches(f, c)
  {
    SearchStepMeaning(f, c);
  }

  /** The filter chain is one filter by `Matches`. */
  lemma FilterCoursesIsFilter(courses: seq<Course>, f: Filters)
    ensures FilterCourses(courses, f) == Filter(courses, c => Matches(f, c))
  {
    var p1, p2, p3, p4 := CategoryStep(f), LevelStep(f), FeaturedStep(f), SearchStep(f);
    var q2 := x => p1(x) && p2(x);
    var q3 := x => q2(x) && p3(x);
    var m := c => Matches(f, c);
    FilterFilter(courses, p1, p2, q2);
    FilterFilter(courses, q2, p3, q3);
    forall c ensures m(c) <==> q3(c) && p4(c) {
      StepsMeaning(f, c);
    }
    FilterFilter(courses, q3, p4, m);
  }

  /** Order: getCourses returns a subsequence of the catalog. */
  lemma GetCoursesKeepsOrder(f: Filters)
    ensures IsSubsequence(GetCourses(f), Catalog())
  {
    FilterCoursesIsFilter(Catalog(), f);
    FilterIsSubsequence(Catalog(), c => Matches(f, c));
  }

  /** Falsy filters impose nothing: `featured: false`, empty strings and
      missing keys all return the whole catalog, all five courses. */
  lemma FalsyFiltersReturnAll(f: Filters)
    requires !Truthy(f.category) && !Truthy(f.level) && f.featured != Some(true) && !Truthy(f.search)
    ensures GetCourses(f) == Catalog() && |GetCourses(f)| == 5
  {
    FilterCoursesIsFilter(Catalog(), f);
  }
}
