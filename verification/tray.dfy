/** The tray menu (src/tray.ts, `updateTrayMenu`): one item per system
    prompt, a separator when there are any, then the settings item. The
    tray takes its prompt type and loader from src/prompts.ts, which is not
    part of this model; only the prompt's label and text are read, so the
    record of `PromptsStore` stands in for it. */
module TrayMenu {
  import opened PromptsStore

  datatype MenuItem = PromptItem(prompt: SystemPrompt) | Separator | SettingsItem

  /** The label an item shows. */
  function ItemLabel(item: MenuItem): string {
    match item
    case PromptItem(p) => p.menuLabel
    case Separator => ""
    case SettingsItem => "Settings..."
  }

  function MenuItems(prompts: seq<SystemPrompt>): (r: seq<MenuItem>)
    ensures |r| == |prompts| + (if |prompts| > 0 then 1 else 0) + 1
    ensures forall i :: 0 <= i < |prompts| ==> r[i] == PromptItem(prompts[i]) && ItemLabel(r[i]) == prompts[i].menuLabel
    ensures (Separator in r) <==> |prompts| > 0
    ensures r[|r| - 1] == SettingsItem && ItemLabel(r[|r| - 1]) == "Settings..."
    ensures forall i :: 0 <= i < |r| - 1 ==> r[i] != SettingsItem
  {
    var items := seq(|prompts|, i requires 0 <= i < |prompts| => PromptItem(prompts[i]));
    var r := items + (if |prompts| > 0 then [Separator] else []) + [SettingsItem];
    assert |prompts| > 0 ==> r[|prompts|] == Separator;
    r
  }
}
