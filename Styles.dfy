/** styles.py: the shared colour palette, the alert-card style tables and the
    uncapped progress-indicator percentage. */
module Styles {
  import opened Basics

  /** The palette dict COLORS (styles.py:7-26). */
  const Colors: map<string, string> := map[
    "primary" := "#2E7D32",
    "secondary" := "#4CAF50",
    "accent" := "#81C784",
    "background" := "#F8F9FA",
    "surface" := "#FFFFFF",
    "text_primary" := "#212121",
    "text_secondary" := "#757575",
    "text_muted" := "#9E9E9E",
    "success" := "#4CAF50",
    "warning" := "#FF9800",
    "danger" := "#F44336",
    "info" := "#2196F3",
    "excellent" := "#00C853",
    "good" := "#4CAF50",
    "moderate" := "#FF9800",
    "poor" := "#F44336",
    "border" := "#E0E0E0",
    "shadow" := "#00000010"
  ]

  /** `COLORS[key]`; a key the palette lacks would raise KeyError. */
  function Color(key: string): string
    requires key in Colors
  {
    Colors[key]
  }

  /** The severity colours coincide with the status colours, and the colour for an
      excellent verdict is a fourth, distinct green. */
  lemma PaletteSeverityAliases()
    ensures Color("good") == Color("success") == "#4CAF50"
    ensures Color("moderate") == Color("warning") == "#FF9800"
    ensures Color("poor") == Color("danger") == "#F44336"
    ensures Color("excellent") !in {Color("good"), Color("moderate"), Color("poor")}
  {
  }

  /** The alert types create_alert_card knows (styles.py:191-203). */
  const AlertTypes: set<string> := {"info", "success", "warning", "danger"}

  const AlertColorTable: map<string, string> := map[
    "info" := Colors["info"],
    "success" := Colors["success"],
    "warning" := Colors["warning"],
    "danger" := Colors["danger"]
  ]

  const AlertIconTable: map<string, Icon> := map[
    "info" := InfoIcon,
    "success" := CheckCircle,
    "warning" := WarningIcon,
    "danger" := ErrorIcon
  ]

  /** `color_map.get(alert_type, COLORS['info'])` (styles.py:205). */
  function AlertColor(alertType: string): (c: string)
    ensures alertType in AlertTypes ==> c == Color(alertType)
    ensures alertType !in AlertTypes ==> c == Color("info")
  {
    if alertType in AlertColorTable then AlertColorTable[alertType] else Colors["info"]
  }

  /** `icon_map.get(alert_type, ft.Icons.INFO)` (styles.py:206). */
  function AlertIcon(alertType: string): (i: Icon)
    ensures i == InfoIcon <==> alertType !in AlertTypes || alertType == "info"
  {
    if alertType in AlertIconTable then AlertIconTable[alertType] else InfoIcon
  }

  /** The four alert types are styled apart, both by colour and by icon, and every
      other type is styled as "info". */
  lemma AlertStylesDistinct(a: string, b: string)
    requires a in AlertTypes && b in AlertTypes && a != b
    ensures AlertColor(a) != AlertColor(b)
    ensures AlertIcon(a) != AlertIcon(b)
  {
  }

  lemma AlertUnknownTypeIsInfo(t: string)
    requires t !in AlertTypes
    ensures AlertColor(t) == AlertColor("info") && AlertIcon(t) == AlertIcon("info")
  {
  }

  /** `(value / max_value) * 100` in create_progress_indicator (styles.py:164-166):
      no cap, no guard; a zero maximum raises ZeroDivisionError. */
  function IndicatorPercentage(value: real, maxValue: real): (p: real)
    requires maxValue != 0.0
    ensures maxValue > 0.0 ==> (p > 100.0 <==> value > maxValue)
    ensures maxValue > 0.0 ==> (p < 0.0 <==> value < 0.0)
    ensures maxValue == 100.0 ==> p == value
  {
    assert maxValue > 0.0 ==> (value / maxValue > 1.0 <==> value > maxValue) by {
      if maxValue > 0.0 {
        assert (value / maxValue) * maxValue == value;
      }
    }
    (value / maxValue) * 100.0
  }
}
