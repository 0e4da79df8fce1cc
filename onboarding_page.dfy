/** The onboarding page: the subject toggle and the profile row that `save` writes. */
module Onboarding {
  import opened Wrappers
  import Practice

  /** The subject buttons, in display order. */
  const SUBJECTS: seq<string> := [
    "English", "Mathematical Methods", "Specialist Mathematics",
    "Chemistry", "Physics", "Biology", "Economics", "Psychology"]

  predicate NoDuplicates(xs: seq<string>) {
    forall i, j | 0 <= i < j < |xs| :: xs[i] != xs[j]
  }

  // ---------------------------------------------------------------------------
  // toggle

  /** `xs.filter(x => x !== s)`. */
  function Without(xs: seq<string>, s: string): (r: seq<string>)
    ensures s !in r
    ensures forall x | x != s :: x in r <==> x in xs
    ensures |r| <= |xs|
    ensures s in xs ==> |r| < |xs|
  {
    if xs == [] then [] else (if xs[0] == s then [] else [xs[0]]) + Without(xs[1..], s)
  }

  /** Removal distributes over concatenation: the other subjects keep their order. */
  lemma {:induction false} WithoutAppend(a: seq<string>, b: seq<string>, s: string)
    ensures Without(a + b, s) == Without(a, s) + Without(b, s)
  {
    if a == [] {
      assert a + b == b;
    } else {
      assert (a + b)[0] == a[0];
      assert (a + b)[1..] == a[1..] + b;
      WithoutAppend(a[1..], b, s);
    }
  }

  /** Removing a subject that is not there changes nothing. */
  lemma {:induction false} WithoutAbsent(xs: seq<string>, s: string)
    requires s !in xs
    ensures Without(xs, s) == xs
  {
    if xs != [] {
      WithoutAbsent(xs[1..], s);
    }
  }

  lemma {:induction false} WithoutKeepsNoDuplicates(xs: seq<string>, s: string)
    requires NoDuplicates(xs)
    ensures NoDuplicates(Without(xs, s))
  {
    if xs != [] {
      WithoutKeepsNoDuplicates(xs[1..], s);
      var rest := Without(xs[1..], s);
      assert xs[0] !in xs[1..];
      assert xs[0] !in rest;
    }
  }

  /** `prev.includes(s) ? prev.filter(x => x !== s) : [...prev, s]`. */
  function Toggled(xs: seq<string>, s: string): (r: seq<string>)
    ensures s in xs ==> s !in r && |r| < |xs| && forall x | x != s :: x in r <==> x in xs
    ensures s !in xs ==> |r| == |xs| + 1 && r[..|xs|] == xs && r[|xs|] == s
  {
    if s in xs then Without(xs, s) else xs + [s]
  }

  /** Toggling an absent subject twice gives back the original list. */
  lemma ToggleTwiceRestores(xs: seq<string>, s: string)
    requires s !in xs
    ensures Toggled(Toggled(xs, s), s) == xs
  {
    WithoutAppend(xs, [s], s);
    WithoutAbsent(xs, s);
  }

  /** Toggling a chosen subject twice moves it to the end. */
  lemma ToggleTwiceMovesToEnd(xs: seq<string>, s: string)
    requires s in xs
    ensures Toggled(Toggled(xs, s), s) == Without(xs, s) + [s]
  {
  }

  /** A list without duplicates stays without duplicates. */
  lemma ToggleKeepsNoDuplicates(xs: seq<string>, s: string)
    requires NoDuplicates(xs)
    ensures NoDuplicates(Toggled(xs, s))
  {
    if s in xs {
      WithoutKeepsNoDuplicates(xs, s);
    }
  }

  /** Every subject offered here is one the practice page knows, so a saved choice survives its filter intact. */
  lemma {:induction false} ChoiceSurvivesPracticeFilter(xs: seq<string>)
    requires forall x | x in xs :: x in SUBJECTS
    ensures Practice.SavedSubjects(xs) == xs
  {
    if xs != [] {
      assert xs[0] in SUBJECTS;
      assert xs[0] in Practice.TOPICS by {
        var i :| 0 <= i < |SUBJECTS| && SUBJECTS[i] == xs[0];
        assert i in {0, 1, 2, 3, 4, 5, 6, 7};
      }
      ChoiceSurvivesPracticeFilter(xs[1..]);
      assert xs == [xs[0]] + xs[1..];
    }
  }

  // ---------------------------------------------------------------------------
  // save

  /** `Math.max(1, Math.min(3, chosen.length || 1))`. */
  function SubjectsPerDay(chosen: seq<string>): (k: int)
    ensures 1 <= k <= 3
    ensures chosen == [] ==> k == 1
    ensures |chosen| >= 3 ==> k == 3
    ensures 1 <= |chosen| <= 3 ==> k == |chosen|
  {
    var n := if |chosen| == 0 then 1 else |chosen|;
    if n > 3 then 3 else n
  }

  /** The row `save` upserts into the profiles table. */
  datatype ProfileRow = ProfileRow(
    id: string, yearLevel: int, dreamAtar: int, minutesPerDay: real,
    subjectsPerDay: int, subjects: seq<string>)

  class OnboardingPage {
    var year: int
    var minutes: real
    var chosen: seq<string>
    var msg: string

    /** Year 11 or 12, and the chosen subjects are distinct entries of SUBJECTS. */
    ghost predicate Valid()
      reads this
    {
      && (year == 11 || year == 12)
      && (forall x | x in chosen :: x in SUBJECTS)
      && NoDuplicates(chosen)
    }

    constructor ()
      ensures Valid()
      ensures year == 12 && minutes == 45.0 && chosen == [] && msg == ""
    {
      year := 12;
      minutes := 45.0;
      chosen := [];
      msg := "";
    }

    /** The year selector offers 11 and 12. */
    method SetYear(y: int)
      requires Valid() && (y == 11 || y == 12)
      modifies this`year
      ensures Valid() && year == y
    {
      year := y;
    }

    method SetMinutes(m: real)
      requires Valid()
      modifies this`minutes
      ensures Valid() && minutes == m
    {
      minutes := m;
    }

    /** A subject button: `s` is one of SUBJECTS. */
    method Toggle(s: string)
      requires Valid() && s in SUBJECTS
      modifies this`chosen
      ensures Valid()
      ensures chosen == Toggled(old(chosen), s)
    {
      ToggleKeepsNoDuplicates(chosen, s);
      chosen := Toggled(chosen, s);
    }

    /**
     * `save`. `user` is the signed-in user's id, `writeError` the message of the error the
     * upsert reports; `row` is what is upserted, None when nobody is signed in.
     */
    method Save(user: Option<string>, writeError: Option<string>) returns (row: Option<ProfileRow>)
      requires Valid()
      modifies this`msg
      ensures Valid()
      ensures row.Some? <==> user.Some?
      ensures user.None? ==> msg == "Please log in first (/login)."
      ensures user.Some? ==> row.value == ProfileRow(user.value, year, 95, minutes, SubjectsPerDay(chosen), chosen)
      ensures user.Some? ==> 1 <= row.value.subjectsPerDay <= 3 && row.value.subjectsPerDay <= |chosen| + 1
      ensures user.Some? ==> msg == (if writeError.Some? then "Error: " + writeError.value else "Saved! Go to /practice")
    {
      msg := "Saving\U{2026}";
      if user.None? {
        msg := "Please log in first (/login).";
        row := None;
        return;
      }
      row := Some(ProfileRow(user.value, year, 95, minutes, SubjectsPerDay(chosen), chosen));
      msg := if writeError.Some? then "Error: " + writeError.value else "Saved! Go to /practice";
    }
  }
}
