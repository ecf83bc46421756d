/**
  The upload panel: the list of picked reference photos, removing one of them,
  and when the generate button may be pressed. Files are opaque values of a
  type parameter `F`; only their order and identity matter here.
 */
module Upload {
  import opened Outcomes

  /** What the panel holds: the prompt text and the picked files, in the order they were picked. */
  datatype Form<F> = Form(prompt: string, files: seq<F>)

  /** `handleFileChange`: the newly picked files go after the existing ones; no file list means no change. */
  function AddFiles<F>(files: seq<F>, picked: Option<seq<F>>): (r: seq<F>)
    ensures picked.None? ==> r == files
    ensures picked.Some? ==> |r| == |files| + |picked.value|
    ensures picked.Some? ==> r[..|files|] == files && r[|files|..] == picked.value
  {
    if picked.Some? then files + picked.value else files
  }

  /**
    `removeFile`: keep every file whose position differs from `index`. The
    filter runs over positions, so an `index` outside the list keeps everything.
   */
  function RemoveFile<F>(files: seq<F>, index: int): (r: seq<F>)
    ensures 0 <= index < |files| ==> r == files[..index] + files[index + 1..]
    ensures !(0 <= index < |files|) ==> r == files
    decreases |files|
  {
    if |files| == 0 then []
    else
      var last := |files| - 1;
      var kept := RemoveFile(files[..last], index);
      assert files[..last] + [files[last]] == files;
      if index == last then kept
      else
        assert 0 <= index < last ==>
          files[..last][..index] + files[..last][index + 1..] + [files[last]] == files[..index] + files[index + 1..];
        kept + [files[last]]
  }

  /** Removing a file drops exactly that one occurrence: the multiset of the others is unchanged. */
  lemma RemoveFileDropsOne<F>(files: seq<F>, index: int)
    requires 0 <= index < |files|
    ensures |RemoveFile(files, index)| == |files| - 1
    ensures multiset(RemoveFile(files, index)) + multiset{files[index]} == multiset(files)
  {
    var before, after, x := files[..index], files[index + 1..], files[index];
    assert RemoveFile(files, index) == before + after;
    SplitAt(files, index);
    MultisetWithout(before, x, after);
  }

  lemma SplitAt<F>(files: seq<F>, index: int)
    requires 0 <= index < |files|
    ensures files == files[..index] + [files[index]] + files[index + 1..]
  {
  }

  lemma MultisetWithout<F>(before: seq<F>, x: F, after: seq<F>)
    ensures multiset(before + after) + multiset{x} == multiset(before + [x] + after)
  {
    assert multiset(before + [x] + after) == multiset(before + [x]) + multiset(after);
  }

  /** Picking one file and then removing it at its position restores the previous list. */
  lemma RemoveUndoesAdd<F>(files: seq<F>, f: F)
    ensures RemoveFile(AddFiles(files, Some([f])), |files|) == files
  {
    var added := AddFiles(files, Some([f]));
    assert added[..|files|] == files;
  }

  /** The generate button is disabled while generating, and when there is neither a prompt nor a file. */
  predicate CanGenerate(isGenerating: bool, prompt: string, fileCount: nat) {
    !(isGenerating || (prompt == "" && fileCount == 0))
  }

  /**
    Pressing the generate button: when the button is enabled the page receives
    the current prompt and file list unchanged; a disabled button does nothing.
   */
  function Click<F>(form: Form<F>, isGenerating: bool): (r: Option<Form<F>>)
    ensures r.Some? <==> !isGenerating && (form.prompt != "" || |form.files| > 0)
    ensures r.Some? ==> r.value == form
  {
    if CanGenerate(isGenerating, form.prompt, |form.files|) then Some(form) else None
  }
}
