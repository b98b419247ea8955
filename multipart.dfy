/** The multipart bodies (`FormData`) that the pages build and the routes
    read. A body is the ordered list of `append`ed entries; `get` returns the
    value of the FIRST entry under a key, or null when there is none. */
module Multipart {
  import opened Wrappers
  import opened Text

  /** A browser `File`: only its name and its MIME type (`file.type`)
      matter to the logic modelled here. */
  datatype File = File(name: string, mimeType: string)

  /** An entry's value is a string or a file. */
  datatype FormValue = TextValue(text: string) | FileValue(file: File)

  datatype Entry = Entry(key: string, value: FormValue)

  type Form = seq<Entry>

  /** `formData.get(key)`: the value of the first entry under `key`. */
  function Get(form: Form, key: string): (r: Option<FormValue>)
    ensures r.None? ==> forall i :: 0 <= i < |form| ==> form[i].key != key
    ensures r.Some? ==>
      exists i :: 0 <= i < |form| && form[i].key == key && form[i].value == r.value &&
        forall j :: 0 <= j < i ==> form[j].key != key
  {
    if form == [] then None
    else if form[0].key == key then Some(form[0].value)
    else
      var r := Get(form[1..], key);
      assert r.Some? ==> exists i :: 1 <= i < |form| && form[i].key == key && form[i].value == r.value &&
                                     forall j :: 0 <= j < i ==> form[j].key != key
        by {
          if r.Some? {
            var i :| 0 <= i < |form[1..]| && form[1..][i].key == key && form[1..][i].value == r.value &&
              forall j :: 0 <= j < i ==> form[1..][j].key != key;
            assert forall j :: 1 <= j < i + 1 ==> form[j] == form[1..][j - 1];
          }
        }
      r
  }

  /** The entry at `i` is the one `get` returns when no earlier entry has
      its key. */
  lemma GetFirstMatch(form: Form, i: nat)
    requires i < |form|
    requires forall j :: 0 <= j < i ==> form[j].key != form[i].key
    ensures Get(form, form[i].key) == Some(form[i].value)
  {
    var r := Get(form, form[i].key);
    if r.Some? {
      var k :| 0 <= k < |form| && form[k].key == form[i].key && form[k].value == r.value &&
        forall j :: 0 <= j < k ==> form[j].key != form[i].key;
      assert k == i;
    }
  }

  /** The entries `${prefix}0`, `${prefix}1`, ... holding `files` in order:
      what `files.forEach((f, index) => form.append(`${prefix}${index}`, f))`
      appends. */
  function IndexedEntries(prefix: string, files: seq<File>): (r: Form)
    ensures |r| == |files|
  {
    seq(|files|, i requires 0 <= i < |files| => Entry(prefix + NatToString(i), FileValue(files[i])))
  }

  /** The `forEach` loop that appends one indexed entry per file. */
  method AppendIndexed(form: Form, prefix: string, files: seq<File>) returns (r: Form)
    ensures r == form + IndexedEntries(prefix, files)
  {
    r := form;
    var index := 0;
    while index < |files|
      invariant 0 <= index <= |files|
      invariant r == form + IndexedEntries(prefix, files[..index])
    {
      assert IndexedEntries(prefix, files[..index + 1]) ==
        IndexedEntries(prefix, files[..index]) + [Entry(prefix + NatToString(index), FileValue(files[index]))];
      r := r + [Entry(prefix + NatToString(index), FileValue(files[index]))];
      index := index + 1;
    }
    assert files[..index] == files;
  }

  /** Each file of an indexed batch is found again under its own key, as
      long as the entries before the batch do not use that key. */
  lemma GetIndexed(form: Form, prefix: string, files: seq<File>, i: nat)
    requires i < |files|
    requires forall j :: 0 <= j < |form| ==> form[j].key != prefix + NatToString(i)
    ensures Get(form + IndexedEntries(prefix, files), prefix + NatToString(i)) == Some(FileValue(files[i]))
  {
    var batch := IndexedEntries(prefix, files);
    var all := form + batch;
    var key := prefix + NatToString(i);
    var at := |form| + i;
    assert all[at] == batch[i] == Entry(key, FileValue(files[i]));
    forall j | 0 <= j < at
      ensures all[j].key != key
    {
      if j < |form| {
        assert all[j] == form[j];
      } else {
        var k := j - |form|;
        assert all[j] == batch[k];
        assert batch[k].key == prefix + NatToString(k);
        IndexedKeysDistinct(prefix, k, i);
      }
    }
    GetFirstMatch(all, at);
  }
}
