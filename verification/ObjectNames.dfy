/** How a logical file (category, key) and an object number become one RADOS object name. */
module ObjectNames {

  datatype Category = Inode | Dentry | Data | Client | Journal

  datatype FileId = FileId(category: Category, key: string)

  /** `get_prefix`. */
  function Prefix(category: Category): (p: string)
    ensures |p| == 2
  {
    match category
    case Inode => "i$"
    case Dentry => "e$"
    case Data => "d$"
    case Client => "c$"
    case Journal => "j$"
  }

  function Digit(d: nat): (c: char)
    requires d < 10
    ensures '0' <= c <= '9'
  {
    '0' + d as char
  }

  /** `std::to_string` of an unsigned number. */
  function Decimal(n: nat): (s: string)
    ensures |s| > 0 && forall i :: 0 <= i < |s| ==> '0' <= s[i] <= '9'
  {
    if n < 10 then [Digit(n)] else Decimal(n / 10) + [Digit(n % 10)]
  }

  /** `get_prefix(category) + key + get_postfix(num)`. */
  function ObjectName(file: FileId, num: nat): (name: string)
  {
    Prefix(file.category) + file.key + "#" + Decimal(num)
  }

  lemma {:induction false} DecimalInjective(m: nat, n: nat)
    requires Decimal(m) == Decimal(n)
    ensures m == n
  {
    if m >= 10 && n >= 10 {
      var dm, dn := Decimal(m), Decimal(n);
      assert dm[|dm| - 1] == Digit(m % 10) && dn[|dn| - 1] == Digit(n % 10);
      assert dm[..|dm| - 1] == Decimal(m / 10) && dn[..|dn| - 1] == Decimal(n / 10);
      DecimalInjective(m / 10, n / 10);
    }
  }

  /** Two names that end in '#' and digits agree on both sides of that last '#', whatever the keys hold. */
  lemma SplitAtLastHash(a: string, b: string, da: string, db: string)
    requires a + "#" + da == b + "#" + db
    requires forall i :: 0 <= i < |da| ==> '0' <= da[i] <= '9'
    requires forall i :: 0 <= i < |db| ==> '0' <= db[i] <= '9'
    ensures a == b && da == db
  {
    var s := a + "#" + da;
    assert s[|a|] == '#' && s[|b|] == '#';
    assert forall k :: |a| < k < |s| ==> s[k] == da[k - |a| - 1];
    assert forall k :: |b| < k < |s| ==> s[k] == db[k - |b| - 1];
    assert a == s[..|a|] == b;
    assert da == s[|a| + 1..] == db;
  }

  /** Distinct (category, key, object number) triples have distinct names, even when keys contain '#'. */
  lemma ObjectNameInjective(f: FileId, i: nat, g: FileId, j: nat)
    ensures ObjectName(f, i) == ObjectName(g, j) <==> f == g && i == j
  {
    if ObjectName(f, i) == ObjectName(g, j) {
      var a, b := Prefix(f.category) + f.key, Prefix(g.category) + g.key;
      SplitAtLastHash(a, b, Decimal(i), Decimal(j));
      DecimalInjective(i, j);
      assert Prefix(f.category) == a[..2] == b[..2] == Prefix(g.category);
      assert f.key == a[2..] == b[2..] == g.key;
      assert Prefix(f.category)[0] == Prefix(g.category)[0];
    }
  }

  /** What the names look like. */
  lemma NamesLookLike(key: string)
    ensures ObjectName(FileId(Inode, key), 0) == "i$" + key + "#0"
    ensures ObjectName(FileId(Dentry, key), 0) == "e$" + key + "#0"
    ensures ObjectName(FileId(Journal, key), 0) == "j$" + key + "#0"
    ensures ObjectName(FileId(Data, key), 12) == "d$" + key + "#12"
    ensures ObjectName(FileId(Client, key), 305) == "c$" + key + "#305"
  {
    assert Decimal(0) == "0" && Decimal(12) == "12";
    assert Decimal(30) == "30" && Decimal(305) == Decimal(30) + "5";
  }
}
