/** The theme channel, `useMonacoTheme` (packages/monaco-vue/src/bindings.ts):
    one way, from the external theme name to the engine. */
module ThemeBinding {

  class ThemeChannel {
    /** The themes handed to the engine's `setTheme`, oldest first. */
    ghost var applied: seq<string>

    constructor ()
      ensures applied == []
    {
      applied := [];
    }

    /** One run of the effect, with the engine handle's presence and the
        theme name at that moment: nothing happens while the engine is absent. */
    method Run(monacoPresent: bool, theme: string)
      modifies this
      ensures applied == old(applied) + (if monacoPresent then [theme] else [])
    {
      if !monacoPresent {
        return;
      }
      applied := applied + [theme];
    }
  }
}
