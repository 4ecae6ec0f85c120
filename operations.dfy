/** The decision logic of the file, shell and web tools (KOV/tools/operations.py).

    The filesystem is a map from path to text content held by a `FileSystem` object;
    a directory listing, the answer typed at a prompt, the result of running a shell
    command and the result of an HTTP request are inputs. */
module Operations {
  import opened Wrappers
  import opened Text

  // ================================================================ string order

  /** Python's `a <= b` on str: lexicographic by code point, a proper prefix first. */
  predicate StrLe(a: string, b: string)
    decreases |a|
  {
    if |a| == 0 then true
    else if |b| == 0 then false
    else if a[0] != b[0] then a[0] < b[0]
    else StrLe(a[1..], b[1..])
  }

  lemma {:induction false} StrLeTotal(a: string, b: string)
    ensures StrLe(a, b) || StrLe(b, a)
    decreases |a|
  {
    if |a| > 0 && |b| > 0 && a[0] == b[0] {
      StrLeTotal(a[1..], b[1..]);
    }
  }

  lemma {:induction false} StrLeReflexive(a: string)
    ensures StrLe(a, a)
    decreases |a|
  {
    if |a| > 0 { StrLeReflexive(a[1..]); }
  }

  lemma {:induction false} StrLeTransitive(a: string, b: string, c: string)
    requires StrLe(a, b) && StrLe(b, c)
    ensures StrLe(a, c)
    decreases |a|
  {
    if |a| > 0 && |b| > 0 && |c| > 0 && a[0] == b[0] && b[0] == c[0] {
      StrLeTransitive(a[1..], b[1..], c[1..]);
    }
  }

  lemma {:induction false} StrLeAntisymmetric(a: string, b: string)
    requires StrLe(a, b) && StrLe(b, a)
    ensures a == b
    decreases |a|
  {
    if |a| > 0 && |b| > 0 {
      StrLeAntisymmetric(a[1..], b[1..]);
      assert a == [a[0]] + a[1..] && b == [b[0]] + b[1..];
    }
  }

  /** Every entry is at most every later one. */
  predicate SortedStrings(s: seq<string>) {
    forall p, q :: 0 <= p < q < |s| ==> StrLe(s[p], s[q])
  }

  /** `x` inserted before the first entry above it. */
  function Insert(x: string, s: seq<string>): (r: seq<string>)
    requires SortedStrings(s)
    ensures SortedStrings(r)
    ensures multiset(r) == multiset(s) + multiset{x}
    decreases |s|
  {
    if |s| == 0 then [x]
    else if StrLe(x, s[0]) then
      assert forall q :: 0 < q < |s| ==> StrLe(s[0], s[q]);
      forall q | 0 <= q < |s| ensures StrLe(x, s[q]) {
        if q > 0 { StrLeTransitive(x, s[0], s[q]); }
      }
      assert forall q :: 1 <= q < |[x] + s| ==> ([x] + s)[q] == s[q - 1];
      [x] + s
    else
      StrLeTotal(x, s[0]);
      var rest := Insert(x, s[1..]);
      assert s == [s[0]] + s[1..];
      assert forall q :: 0 <= q < |rest| ==> StrLe(s[0], rest[q]) by {
        forall q | 0 <= q < |rest| ensures StrLe(s[0], rest[q]) {
          assert rest[q] in multiset(rest);
          assert rest[q] == x || rest[q] in multiset(s[1..]);
          if rest[q] != x {
            var k :| 0 <= k < |s[1..]| && s[1..][k] == rest[q];
            assert s[k + 1] == rest[q];
          }
        }
      }
      [s[0]] + rest
  }

  /** The reference sort of a listing: insertion of each name into the sorted rest. */
  function SortStrings(s: seq<string>): (r: seq<string>)
    ensures SortedStrings(r)
    ensures multiset(r) == multiset(s)
    decreases |s|
  {
    if |s| == 0 then []
    else
      assert s == [s[0]] + s[1..];
      Insert(s[0], SortStrings(s[1..]))
  }

  /** The first entry of a sorted sequence is at most each of its entries. */
  lemma FirstIsLeast(s: seq<string>, x: string)
    requires SortedStrings(s) && x in multiset(s)
    ensures StrLe(s[0], x)
  {
    var i :| 0 <= i < |s| && s[i] == x;
    if i == 0 { StrLeReflexive(x); }
  }

  lemma TailMultiset(s: seq<string>)
    requires |s| > 0
    ensures multiset(s[1..]) == multiset(s) - multiset{s[0]}
  {
    assert s == [s[0]] + s[1..];
  }

  /** A sorted arrangement of given entries is unique. */
  lemma {:induction false} SortedUnique(s: seq<string>, t: seq<string>)
    requires SortedStrings(s) && SortedStrings(t)
    requires multiset(s) == multiset(t)
    ensures s == t
    decreases |s|
  {
    if |s| == 0 {
      assert |t| == 0 by { assert |multiset(t)| == 0; }
    } else {
      assert |t| > 0 by { assert s[0] in multiset(t); }
      // the first entry of each is the least, so they are equal
      assert s[0] in multiset(s) && t[0] in multiset(t);
      FirstIsLeast(t, s[0]);
      FirstIsLeast(s, t[0]);
      StrLeAntisymmetric(s[0], t[0]);
      TailMultiset(s);
      TailMultiset(t);
      assert SortedStrings(s[1..]) && SortedStrings(t[1..]);
      SortedUnique(s[1..], t[1..]);
      assert s == [s[0]] + s[1..] && t == [t[0]] + t[1..];
    }
  }

  /** Adjacent entries out of order are swapped; the entries stay the same. */
  method SwapAdjacent(a: array<string>, j: nat)
    requires 0 < j < a.Length
    modifies a
    ensures a[..] == old(a[..])[j - 1 := old(a[j])][j := old(a[j - 1])]
    ensures multiset(a[..]) == multiset(old(a[..]))
  {
    a[j - 1], a[j] := a[j], a[j - 1];
  }

  /** `files.sort()`: insertion sort by adjacent swaps, in place. */
  method SortEntries(a: array<string>)
    modifies a
    ensures SortedStrings(a[..])
    ensures multiset(a[..]) == multiset(old(a[..]))
  {
    var i := 0;
    while i < a.Length
      invariant 0 <= i <= a.Length
      invariant SortedStrings(a[..i])
      invariant multiset(a[..]) == multiset(old(a[..]))
    {
      var j := i;
      while j > 0 && !StrLe(a[j - 1], a[j])
        invariant 0 <= j <= i
        invariant forall m, n :: 0 <= m < n <= i && m != j && n != j ==> StrLe(a[m], a[n])
        invariant forall n :: j < n <= i ==> StrLe(a[j], a[n])
        invariant multiset(a[..]) == multiset(old(a[..]))
      {
        StrLeTotal(a[j - 1], a[j]);
        SwapAdjacent(a, j);
        j := j - 1;
      }
      forall m | 0 <= m < j ensures StrLe(a[m], a[j]) {
        if m < j - 1 { StrLeTransitive(a[m], a[j - 1], a[j]); }
      }
      i := i + 1;
    }
    assert a[..] == a[..a.Length];
  }

  // ================================================================ the filesystem

  /** Python's universal-newline reading: `\r\n` and a lone `\r` both read as `\n`. */
  function UniversalNewlines(s: string): (r: string)
    ensures |r| <= |s|
    decreases |s|
  {
    if |s| == 0 then []
    else if s[0] == '\r' then
      if |s| > 1 && s[1] == '\n' then ['\n'] + UniversalNewlines(s[2..])
      else ['\n'] + UniversalNewlines(s[1..])
    else [s[0]] + UniversalNewlines(s[1..])
  }

  /** Text without carriage returns reads back unchanged. */
  lemma {:induction false} NoCarriageReturnReadsBack(s: string)
    requires '\r' !in s
    ensures UniversalNewlines(s) == s
    decreases |s|
  {
    if |s| > 0 {
      assert '\r' !in s[1..];
      NoCarriageReturnReadsBack(s[1..]);
    }
  }

  /** Read text never holds a carriage return. */
  lemma {:induction false} ReadTextHasNoCarriageReturn(s: string)
    ensures '\r' !in UniversalNewlines(s)
    decreases |s|
  {
    if |s| > 0 {
      if s[0] == '\r' && |s| > 1 && s[1] == '\n' {
        ReadTextHasNoCarriageReturn(s[2..]);
      } else {
        ReadTextHasNoCarriageReturn(s[1..]);
      }
    }
  }

  /** What `read_file(path)` returns for these files, when opening an existing file raises
      `fault` (a permission error, say) if there is one. */
  function ReadReply(files: map<string, string>, path: string, fault: Option<string>): string {
    if path !in files then "File not found: " + path
    else if fault.Some? then "Error reading " + path + ": " + fault.value
    else "File contents of " + path + ":\n" + UniversalNewlines(files[path])
  }

  /** The outcome of `os.listdir(path)`: the entry names, or the text of the exception. */
  datatype Listing = Entries(names: seq<string>) | ListError(message: string)

  /** What `list_dir(path)` returns for this listing. */
  function ListReply(path: string, listing: Listing): string {
    match listing
    case Entries(names) => "Files in " + path + ":\n" + Join(SortStrings(names), "\n")
    case ListError(message) => "Error listing directory " + path + ": " + message
  }

  /** The header line is followed by every entry, ascending, one per line: the reply for a
      listing is the same for any order in which the directory returns its entries. */
  lemma ListReplyIgnoresOrder(path: string, names1: seq<string>, names2: seq<string>)
    requires multiset(names1) == multiset(names2)
    ensures ListReply(path, Entries(names1)) == ListReply(path, Entries(names2))
  {
    SortedUnique(SortStrings(names1), SortStrings(names2));
  }

  /** `list_dir`: the listing is copied into a list, sorted in place and joined. */
  method ListDir(path: string, listing: Listing) returns (reply: string)
    ensures reply == ListReply(path, listing)
    ensures listing.Entries? ==> exists sorted: seq<string> ::
      && SortedStrings(sorted) && multiset(sorted) == multiset(listing.names)
      && reply == "Files in " + path + ":\n" + Join(sorted, "\n")
  {
    match listing
    case ListError(message) =>
      reply := "Error listing directory " + path + ": " + message;
    case Entries(names) =>
      var a := new string[|names|](i requires 0 <= i < |names| => names[i]);
      assert a[..] == names;
      SortEntries(a);
      SortedUnique(a[..], SortStrings(names));
      reply := "Files in " + path + ":\n" + Join(a[..], "\n");
  }

  /** The answers that confirm a prompt: "y" in either case. */
  predicate Confirms(answer: string) {
    Lower(answer) == "y"
  }

  class FileSystem {
    /** The text content of every file, by path. */
    var files: map<string, string>

    /** No file has the empty path. */
    predicate Valid()
      reads this
    {
      "" !in files
    }

    constructor (initial: map<string, string>)
      requires "" !in initial
      ensures files == initial && Valid()
    {
      files := initial;
    }

    /** `read_file(path)`: the file's text as read back, or the not-found or error message. */
    method ReadFile(path: string, fault: Option<string>) returns (reply: string)
      ensures reply == ReadReply(files, path, fault)
    {
      if path !in files {
        reply := "File not found: " + path;
      } else if fault.Some? {
        reply := "Error reading " + path + ": " + fault.value;
      } else {
        reply := "File contents of " + path + ":\n" + UniversalNewlines(files[path]);
      }
    }

    /** `write_file(data)` with `data.get('path')` and `data.get('content')`: a missing or
        empty path is refused and nothing changes; so is a write the system refuses with
        `fault`; otherwise the file is created or overwritten with the content, "" when none
        is given. */
    method WriteFile(path: Option<string>, content: Option<string>, fault: Option<string>)
      returns (reply: string)
      requires Valid()
      modifies this
      ensures Valid()
      ensures path.None? || path.value == [] ==>
                reply == "Error: No file path provided" && files == old(files)
      ensures path.Some? && path.value != [] && fault.Some? ==>
                reply == "Error writing file: " + fault.value && files == old(files)
      ensures path.Some? && path.value != [] && fault.None? ==>
                reply == "Successfully wrote to " + path.value
                && files == old(files)[path.value := content.GetOr("")]
    {
      if path.None? || path.value == [] {
        return "Error: No file path provided";
      }
      if fault.Some? {
        return "Error writing file: " + fault.value;
      }
      files := files[path.value := content.GetOr("")];
      reply := "Successfully wrote to " + path.value;
    }

    /** `delete_file(path, answer)`: a missing path is reported without a prompt; otherwise
        the prompt is shown and only a confirming answer removes that one path, unless the
        removal raises `fault`. `prompted` tells whether the prompt was shown. */
    method DeleteFile(path: string, answer: string, fault: Option<string>)
      returns (reply: string, prompted: bool)
      requires Valid()
      modifies this
      ensures Valid()
      ensures prompted <==> path in old(files)
      ensures path !in old(files) ==> reply == "File not found: " + path && files == old(files)
      ensures path in old(files) && !Confirms(answer) ==>
                reply == "File deletion cancelled" && files == old(files)
      ensures path in old(files) && Confirms(answer) && fault.Some? ==>
                reply == "Error deleting " + path + ": " + fault.value && files == old(files)
      ensures path in old(files) && Confirms(answer) && fault.None? ==>
                reply == "Successfully deleted " + path && files == old(files) - {path}
    {
      if path !in files {
        return "File not found: " + path, false;
      }
      prompted := true;
      if !Confirms(answer) {
        reply := "File deletion cancelled";
        return;
      }
      if fault.Some? {
        reply := "Error deleting " + path + ": " + fault.value;
        return;
      }
      files := files - {path};
      reply := "Successfully deleted " + path;
    }
  }

  /** Writing then reading the same path returns the written content (as read back with
      universal newlines), under the success header. */
  lemma ReadYourWrite(files: map<string, string>, path: string, content: string)
    ensures ReadReply(files[path := content], path, None)
              == "File contents of " + path + ":\n" + UniversalNewlines(content)
    ensures '\r' !in content ==>
              ReadReply(files[path := content], path, None) == "File contents of " + path + ":\n" + content
  {
    if '\r' !in content { NoCarriageReturnReadsBack(content); }
  }

  /** Writing one path leaves what every other path reads unchanged. */
  lemma WriteLeavesOtherPaths(files: map<string, string>, path: string, content: string, other: string,
                               fault: Option<string>)
    requires other != path
    ensures ReadReply(files[path := content], other, fault) == ReadReply(files, other, fault)
  {
  }

  /** After removing a path, reading it reports it missing and every other path reads as before. */
  lemma ReadAfterDelete(files: map<string, string>, path: string, other: string, fault: Option<string>)
    ensures ReadReply(files - {path}, path, fault) == "File not found: " + path
    ensures other != path ==> ReadReply(files - {path}, other, fault) == ReadReply(files, other, fault)
  {
  }

  // ================================================================ shell

  const DangerousCommands: seq<string> := ["rm -rf", "kill -9", "sudo rm", "format", "mkfs"]

  /** The lower-cased command contains one of the five dangerous substrings. */
  predicate IsDangerous(command: string) {
    ContainsAny(Lower(command), DangerousCommands)
  }

  /** The test is by substring: any command whose lower-cased text contains "format"
      anywhere (as in `cat information.txt`) counts as dangerous. */
  lemma ContainingFormatIsDangerous(command: string, k: nat)
    requires OccursAt(Lower(command), "format", k)
    ensures IsDangerous(command)
  {
    ContainsIff(Lower(command), "format");
    assert DangerousCommands[3] == "format";
  }

  /** What `subprocess.run` did: finished with this stdout and stderr, or raised. */
  datatype ShellOutcome = Completed(stdout: string, stderr: string) | ShellRaised(message: string)

  /** The reply of `run_shell`, whether it prompted, and whether the command was run. */
  datatype ShellReply = ShellReply(reply: string, prompted: bool, executed: bool)

  /** `run_shell(command)`: a dangerous command asks first and stops unless confirmed;
      otherwise the command runs and its combined output is reported. */
  function RunShell(command: string, answer: string, outcome: ShellOutcome): (r: ShellReply)
    ensures r.prompted <==> IsDangerous(command)
    ensures r.executed <==> !IsDangerous(command) || Confirms(answer)
    ensures !r.executed ==> r.reply == "Command execution cancelled"
    ensures r.executed && outcome.Completed? ==>
              r.reply == "Command: " + command + "\nOutput:\n" + outcome.stdout + outcome.stderr
    ensures r.executed && outcome.ShellRaised? ==>
              r.reply == "Error executing command '" + command + "': " + outcome.message
  {
    var dangerous := IsDangerous(command);
    if dangerous && !Confirms(answer) then ShellReply("Command execution cancelled", true, false)
    else
      var reply := match outcome
        case Completed(out, err) => "Command: " + command + "\nOutput:\n" + out + err
        case ShellRaised(message) => "Error executing command '" + command + "': " + message;
      ShellReply(reply, dangerous, true)
  }

  /** A declined dangerous command runs nothing: the reply does not depend on what running
      it would have done. */
  lemma DeclinedCommandRunsNothing(command: string, answer: string, o1: ShellOutcome, o2: ShellOutcome)
    requires IsDangerous(command) && !Confirms(answer)
    ensures RunShell(command, answer, o1) == RunShell(command, answer, o2)
  {
  }

  /** A harmless command never reads the answer. */
  lemma HarmlessCommandIgnoresAnswer(command: string, a1: string, a2: string, outcome: ShellOutcome)
    requires !IsDangerous(command)
    ensures RunShell(command, a1, outcome) == RunShell(command, a2, outcome)
  {
  }

  // ================================================================ web

  const BodyLimit: nat := 2000

  /** The body as embedded in the reply: its first 2000 characters, then "..." if it was longer. */
  function Truncated(body: string): (r: string)
    ensures |body| <= BodyLimit ==> r == body
    ensures |body| > BodyLimit ==> |r| == BodyLimit + 3 && r[..BodyLimit] == body[..BodyLimit] && r[BodyLimit..] == "..."
  {
    if |body| > BodyLimit then body[..BodyLimit] + "..." else body
  }

  /** At most 2003 characters, and the body's first 2000 (or all of it) come first. */
  lemma TruncatedBounds(body: string)
    ensures |Truncated(body)| <= BodyLimit + 3
    ensures |body| <= BodyLimit ==> Truncated(body) == body
    ensures StartsWith(Truncated(body), body[..if |body| <= BodyLimit then |body| else BodyLimit])
  {
  }

  /** Embedding an already embedded body changes nothing more. */
  lemma TruncatedIdempotent(body: string)
    ensures Truncated(Truncated(body)) == Truncated(body)
  {
    if |body| > BodyLimit {
      var r := Truncated(body);
      assert r[..BodyLimit] == body[..BodyLimit];
    }
  }

  /** What `requests.get` did: a body with a success status, a request error (including an
      error status), or another exception. */
  datatype FetchOutcome = Body(text: string) | RequestFailed(message: string) | OtherFailure(message: string)

  /** `fetch_url(url)`. */
  function FetchUrl(url: string, outcome: FetchOutcome): (r: string)
    ensures outcome.Body? ==> r == "Content from " + url + ":\n" + Truncated(outcome.text)
    ensures outcome.RequestFailed? ==> r == "Error fetching " + url + ": " + outcome.message
    ensures outcome.OtherFailure? ==> r == "Unexpected error fetching " + url + ": " + outcome.message
  {
    match outcome
    case Body(text) => "Content from " + url + ":\n" + Truncated(text)
    case RequestFailed(message) => "Error fetching " + url + ": " + message
    case OtherFailure(message) => "Unexpected error fetching " + url + ": " + message
  }
}
