/** The state the event listeners change: the module-level `images` list, the runner's quit flag and
    the class-level IIIFURLTester.tasks list. */
module Listeners {
  import opened Wrappers
  import opened Corpus
  import opened TaskList
  import Iiif
  import Tasks

  class LoadTest {
    /** The global corpus of descriptor URLs; test starts only ever append to it. */
    var images: seq<string>
    /** Whether environment.runner.quit() has been called. */
    var quit: bool
    /** IIIFURLTester.tasks: the task functions a simulated user picks from. */
    var tasks: seq<TaskKind>

    /** Every corpus entry ends with /info.json. */
    ghost predicate Valid()
      reads this
    {
      forall i :: 0 <= i < |images| ==> Accepted(images[i])
    }

    /** Module load: an empty corpus, an empty task list, a running test. */
    constructor ()
      ensures Valid() && images == [] && !quit && tasks == []
    {
      images := [];
      quit := false;
      tasks := [];
    }

    /** on_test_start: reads the URL list line by line and appends every accepted, newline-stripped
        line to the corpus. None, standing for any exception inside the listener's try block, appends nothing and quits the runner,
        as does a corpus that is still empty afterwards. */
    method OnTestStart(file: Option<seq<string>>)
      requires Valid()
      modifies this
      ensures Valid()
      ensures file.Some? ==> images == old(images) + Kept(file.value)
      ensures file.None? ==> images == old(images)
      ensures quit <==> old(quit) || file.None? || images == []
      ensures tasks == old(tasks)
    {
      match file
      case None =>
        quit := true;
      case Some(lines) =>
        var i := 0;
        while i < |lines|
          invariant 0 <= i <= |lines|
          invariant images == old(images) + Kept(lines[..i])
          invariant Valid()
          invariant quit == old(quit) && tasks == old(tasks)
        {
          var url := StripNewlines(lines[i]);
          KeptNext(lines, i);
          if Accepted(url) {
            images := images + [url];
          }
          i := i + 1;
        }
        assert lines[..|lines|] == lines;
        if |images| == 0 {
          quit := true;
        }
    }

    /** The init listener: IIIFURLTester.tasks becomes the tasks named by the --tasks argument
        (all thirteen when it is empty). An unknown name raises KeyError and leaves the list as it was. */
    method OnInit(tasksArg: string) returns (raised: Option<Exception>)
      requires Valid()
      modifies this
      ensures Valid()
      ensures BuildTaskList(tasksArg).Ok? ==> raised.None? && tasks == BuildTaskList(tasksArg).value
      ensures BuildTaskList(tasksArg).Err? ==> raised == Some(BuildTaskList(tasksArg).error) && tasks == old(tasks)
      ensures images == old(images) && quit == old(quit)
    {
      match BuildTaskList(tasksArg)
      case Ok(ts) =>
        tasks := ts;
        raised := None;
      case Err(e) =>
        raised := Some(e);
    }
  }

  /** Only accepted lines reach the URLs: on a valid corpus a template task requests a corpus entry's
      identifier followed by its suffix, and cutting the suffix off and appending /info.json gives
      that entry back. */
  lemma TemplateRequestsCorpusEntry(t: LoadTest, tmpl: Tasks.Template, seed: nat)
    requires t.Valid() && |t.images| > 0
    ensures var url := Tasks.TemplateTask(tmpl, t.images, seed).requests[0].url;
      exists k :: 0 <= k < |t.images| && url == Iiif.Identifier(t.images[k]) + tmpl.Suffix()
                  && url[..|url| - |tmpl.Suffix()|] + Iiif.InfoSuffix == t.images[k]
  {
    var url := Tasks.TemplateTask(tmpl, t.images, seed).requests[0].url;
    var k :| 0 <= k < |t.images| && url == Iiif.Identifier(t.images[k]) + tmpl.Suffix();
    assert Accepted(t.images[k]);
    Tasks.TemplateUrlOfEntry(tmpl, t.images[k]);
  }

  /** A corpus built from two files in turn holds the first file's entries, then the second's; the
      runner quits exactly when the first file alone gave no entry, since a quit is never undone. */
  method TwoTestStarts(first: seq<string>, second: seq<string>) returns (t: LoadTest)
    ensures t.images == Kept(first + second)
    ensures t.quit <==> Kept(first) == []
  {
    t := new LoadTest();
    t.OnTestStart(Some(first));
    assert t.images == Kept(first) && (t.quit <==> Kept(first) == []);
    t.OnTestStart(Some(second));
    assert t.images == Kept(first) + Kept(second);
    KeptAppend(first, second);
  }
}
