/**
 * The storage banner of the model-management page
 * (src/pages/model-management/components/StorageWarning.jsx): the warning
 * level for the used share of the disk, the fixed texts and styles of each
 * level, the colour of the usage bar and the extra settings button.
 */
module StorageWarning {

  datatype Level = Info | Warning | Critical {
    function Rank(): nat {
      match this
      case Info => 0
      case Warning => 1
      case Critical => 2
    }
  }

  /**
   * `getWarningLevel`: `used / total * 100` compared with 90 and 80, exactly.
   * With `total = 0` the share is `Infinity` for any use (critical) and `NaN`
   * for none, which fails both comparisons (info).
   */
  function LevelOf(used: nat, total: nat): Level {
    if total == 0 then (if used > 0 then Critical else Info)
    else if used * 100 >= 90 * total then Critical
    else if used * 100 >= 80 * total then Warning
    else Info
  }

  /** For a fixed disk, using more space never lowers the level. */
  lemma LevelMonotone(used: nat, more: nat, total: nat)
    requires used <= more
    ensures LevelOf(used, total).Rank() <= LevelOf(more, total).Rank()
  {
    assert used * 100 <= more * 100;
  }

  /** The level is critical from 90 % on, warning from 80 %, info below. */
  lemma LevelThresholds(used: nat, total: nat)
    requires total > 0
    ensures LevelOf(used, total) == Critical <==> 10 * used >= 9 * total
    ensures LevelOf(used, total) == Warning <==> 5 * used >= 4 * total && 10 * used < 9 * total
    ensures LevelOf(used, total) == Info <==> 5 * used < 4 * total
  {
  }

  /** The fields of `getWarningConfig`. */
  datatype Config = Config(
    icon: string, iconColor: string, bgColor: string, borderColor: string,
    title: string, message: string, actionText: string)

  const CriticalMessage := "Storage is critically low. Consider removing unused models to free up space."
  const WarningMessage := "Storage space is running low. You may want to clean up unused models."
  const InfoMessage := "Monitor your storage usage to ensure optimal performance."

  /** `getWarningConfig`: one fixed record per level, info being the default branch. */
  function ConfigOf(level: Level): Config {
    match level
    case Critical => Config("AlertTriangle", "text-error", "bg-error/10", "border-error/20",
                            "Critical Storage Warning", CriticalMessage, "Clean Up Now")
    case Warning => Config("AlertCircle", "text-warning", "bg-warning/10", "border-warning/20",
                           "Storage Warning", WarningMessage, "Manage Storage")
    case Info => Config("Info", "text-accent", "bg-accent/10", "border-accent/20",
                        "Storage Information", InfoMessage, "View Details")
  }

  /** The class of the usage bar. */
  function BarColor(level: Level): string {
    if level == Critical then "bg-error" else if level == Warning then "bg-warning" else "bg-accent"
  }

  /** The "Storage Settings" button. */
  predicate ShowsStorageSettings(level: Level) {
    level == Critical
  }

  /** Each level has its own title and its own action text. */
  lemma ConfigDistinct(a: Level, b: Level)
    ensures ConfigOf(a).title == ConfigOf(b).title <==> a == b
    ensures ConfigOf(a).actionText == ConfigOf(b).actionText <==> a == b
  {
    assert |ConfigOf(Critical).title| == 24 && |ConfigOf(Warning).title| == 15 && |ConfigOf(Info).title| == 19;
    assert |ConfigOf(Warning).actionText| == 14 && |ConfigOf(Critical).actionText| == 12;
    assert ConfigOf(Critical).actionText[0] == 'C' && ConfigOf(Info).actionText[0] == 'V';
  }

  /**
   * The bar takes the banner's background colour without its opacity, and the
   * settings button appears exactly with the critical title.
   */
  lemma BarMatchesBanner(a: Level)
    ensures BarColor(a) + "/10" == ConfigOf(a).bgColor
    ensures ShowsStorageSettings(a) <==> ConfigOf(a).title == "Critical Storage Warning"
  {
    ConfigDistinct(a, Critical);
    assert "bg-error" + "/10" == "bg-error/10";
    assert "bg-warning" + "/10" == "bg-warning/10";
    assert "bg-accent" + "/10" == "bg-accent/10";
  }
}
