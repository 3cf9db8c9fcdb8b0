/**
 * The constant table of self-help resources and the selection of resources by mood.
 */
module ResourceData {
  import opened Wellness

  /** The resource table, in its declared order. */
  const Table: seq<Resource> := [
    Resource("1", "Meditación Guiada para Principiantes",
      "Una introducción suave a la meditación mindfulness, perfecta para reducir el estrés y la ansiedad.",
      Meditation, "https://positivepsychology.com/meditation-techniques-beginners/"),
    Resource("2", "Ejercicios de Respiración",
      "Técnicas de respiración profunda para calmar la mente y reducir la tensión física.",
      Stress, "https://positivepsychology.com/breathing-exercises/"),
    Resource("3", "Rutina de Ejercicio para el Bienestar Mental",
      "Cómo el ejercicio regular mejora el estado de ánimo y reduce los síntomas de depresión.",
      Exercise, "https://positivepsychology.com/physical-activity-mental-health/"),
    Resource("4", "Higiene del Sueño",
      "Estrategias para mejorar la calidad del sueño y establecer rutinas saludables.",
      Sleep, "https://positivepsychology.com/sleep-hygiene/"),
    Resource("5", "Diario de Gratitud",
      "Cómo llevar un diario de gratitud puede transformar tu perspectiva y bienestar emocional.",
      Meditation, "https://positivepsychology.com/gratitude-journal/"),
    Resource("6", "Manejo del Estrés Académico",
      "Técnicas específicas para estudiantes para manejar la presión académica.",
      Stress, "https://conecta.tec.mx/es/noticias/aguascalientes/salud/encuentra-tu-balance-5-tips-para-manejar-el-estres-academico"),
    Resource("7", "Líneas de Ayuda 24/7",
      "Si necesitas hablar con alguien de inmediato, estas líneas ofrecen apoyo confidencial.",
      Emergency, "tel:*4141"),
    Resource("8", "Actividades Físicas Suaves",
      "Yoga y estiramientos para mejorar el bienestar físico y mental.",
      Exercise, "https://positivepsychology.com/yoga-therapy/")
  ]

  /** The table's ids are pairwise distinct. */
  lemma TableIdsDistinct()
    ensures forall i, j :: 0 <= i < j < |Table| ==> Table[i].id != Table[j].id
  {
  }

  /** `a` is `b` with some elements left out, the rest kept in order. */
  ghost predicate IsSubsequence<T>(a: seq<T>, b: seq<T>)
    decreases |b|
  {
    a == [] || (b != [] && ((a[0] == b[0] && IsSubsequence(a[1..], b[1..])) || IsSubsequence(a, b[1..])))
  }

  /** `filter(r => r.category is one of cats)`, keeping the order of `rs`. */
  function FilterByCategory(rs: seq<Resource>, cats: set<Category>): (r: seq<Resource>)
    ensures forall x :: x in r <==> x in rs && x.category in cats
    ensures |r| <= |rs|
  {
    if rs == [] then []
    else (if rs[0].category in cats then [rs[0]] else []) + FilterByCategory(rs[1..], cats)
  }

  /** A filter keeps its input's order. */
  lemma {:induction false} FilterIsSubsequence(rs: seq<Resource>, cats: set<Category>)
    ensures IsSubsequence(FilterByCategory(rs, cats), rs)
  {
    if rs != [] {
      FilterIsSubsequence(rs[1..], cats);
      var r := FilterByCategory(rs, cats);
      if rs[0].category in cats {
        assert r[0] == rs[0] && r[1..] == FilterByCategory(rs[1..], cats);
      } else {
        assert r == FilterByCategory(rs[1..], cats);
      }
    }
  }

  /** The categories `getResourcesByMood` keeps for each mood band. */
  function MoodCategories(mood: int): set<Category> {
    if mood <= 2 then {Emergency, Meditation, Stress}
    else if mood <= 4 then {Meditation, Stress, Exercise}
    else {Exercise, Sleep}
  }

  /** `getResourcesByMood`: the table filtered by the categories of the mood's band. */
  function ResourcesByMood(mood: int): (r: seq<Resource>)
    ensures forall x :: x in r <==> x in Table && x.category in MoodCategories(mood)
  {
    FilterByCategory(Table, MoodCategories(mood))
  }

  /** The selection is taken from the table, in table order. */
  lemma ResourcesByMoodInOrder(mood: int)
    ensures IsSubsequence(ResourcesByMood(mood), Table)
  {
    FilterIsSubsequence(Table, MoodCategories(mood));
  }

  /**
   * A mood of at most 2 selects exactly the emergency, meditation and stress
   * resources; up to 4, meditation, stress and exercise; above 4, exercise and sleep.
   */
  lemma ResourcesByMoodContents(mood: int, x: Resource)
    ensures mood <= 2 ==> (x in ResourcesByMood(mood) <==>
              x in Table && (x.category == Emergency || x.category == Meditation || x.category == Stress))
    ensures 2 < mood <= 4 ==> (x in ResourcesByMood(mood) <==>
              x in Table && (x.category == Meditation || x.category == Stress || x.category == Exercise))
    ensures 4 < mood ==> (x in ResourcesByMood(mood) <==>
              x in Table && (x.category == Exercise || x.category == Sleep))
  {
    BandFilterContents(Table, mood, x);
  }

  /** The band filter over any list of resources. */
  lemma BandFilterContents(rs: seq<Resource>, mood: int, x: Resource)
    ensures var r := FilterByCategory(rs, MoodCategories(mood));
            && (mood <= 2 ==> (x in r <==>
                  x in rs && (x.category == Emergency || x.category == Meditation || x.category == Stress)))
            && (2 < mood <= 4 ==> (x in r <==>
                  x in rs && (x.category == Meditation || x.category == Stress || x.category == Exercise)))
            && (4 < mood ==> (x in r <==> x in rs && (x.category == Exercise || x.category == Sleep)))
  {
  }

  /** The emergency line is offered exactly when the mood is at most 2. */
  lemma EmergencyOnlyForLowMood(mood: int)
    ensures (exists x :: x in ResourcesByMood(mood) && x.category == Emergency) <==> mood <= 2
  {
    if mood <= 2 {
      var line := Table[6];
      assert line.category == Emergency && line in Table;
      BandFilterContents(Table, mood, line);
    } else {
      forall x | x in ResourcesByMood(mood) ensures x.category != Emergency {
        BandFilterContents(Table, mood, x);
      }
    }
  }
}
