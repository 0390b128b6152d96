/** `RenderTemplate`: one ReplaceAll per variable, in whatever order the map is visited. */
module Template {
  import opened Tables

  function Hole(k: string): string {
    "{" + k + "}"
  }

  /** strings.ReplaceAll for the pattern "{k}": leftmost, non-overlapping. */
  function ReplaceHole(s: string, k: string, v: string): string {
    if s == "" then ""
    else if Hole(k) <= s then v + ReplaceHole(s[|k| + 2..], k, v)
    else [s[0]] + ReplaceHole(s[1..], k, v)
  }

  /** The result of visiting the variables from first to last. */
  function Render(body: string, vars: Vars): string
    decreases vars
  {
    if vars == [] then body else Render(ReplaceHole(body, vars[0].0, vars[0].1), vars[1..])
  }

  method RenderTemplate(body: string, vars: Vars) returns (out: string)
    ensures out == Render(body, vars)
  {
    out := body;
    for i := 0 to |vars|
      invariant Render(out, vars[i..]) == Render(body, vars)
    {
      assert vars[i..][1..] == vars[i + 1..];
      out := ReplaceHole(out, vars[i].0, vars[i].1);
    }
  }
}
