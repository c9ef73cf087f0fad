/** Localized strings: the lookup with its two fallbacks, the `{pct}`
    substitution of the progress message, and the two programs' string tables. */
module Localization {
  import opened Text

  /** One language: message key to text. */
  type Table = map<string, string>

  /** Language code to table (the source's `LANGUAGES`). */
  type Tables = map<string, Table>

  /** The table a lookup uses: the language's own, or English for an unknown language. */
  function TableFor(tables: Tables, lang: string): Table
    requires "en" in tables
  {
    if lang in tables then tables[lang] else tables["en"]
  }

  /** `LANGUAGES.get(lang, LANGUAGES['en']).get(key, f"<{key}>")` */
  function GetString(tables: Tables, lang: string, key: string): string
    requires "en" in tables
  {
    var table := TableFor(tables, lang);
    if key in table then table[key] else "<" + key + ">"
  }

  /** The lookup returns the language's own text when it has one, English text for an
      unknown language, and the visible placeholder `<key>` when the key is missing. */
  lemma GetStringSpec(tables: Tables, lang: string, key: string)
    requires "en" in tables
    ensures lang in tables && key in tables[lang] ==> GetString(tables, lang, key) == tables[lang][key]
    ensures lang in tables && key !in tables[lang] ==> GetString(tables, lang, key) == "<" + key + ">"
    ensures lang !in tables ==> GetString(tables, lang, key) == GetString(tables, "en", key)
  {
  }

  /** `template.format(pct=pct)`: every `{pct}` field becomes the decimal number. */
  function FormatPct(template: string, pct: nat): string
    decreases |template|
  {
    if template == [] then []
    else if StartsWith(template, "{pct}") then NatToDecimal(pct) + FormatPct(template[5..], pct)
    else [template[0]] + FormatPct(template[1..], pct)
  }

  predicate BraceFree(s: string) { forall k | 0 <= k < |s| :: s[k] != '{' }

  /** Text without a replacement field is copied through unchanged. */
  lemma {:induction false} FormatPctBraceFree(s: string, rest: string, pct: nat)
    requires BraceFree(s)
    ensures FormatPct(s + rest, pct) == s + FormatPct(rest, pct)
    decreases |s|
  {
    if s != [] {
      var t := s + rest;
      assert t[0] == s[0] && t[0] != '{';
      assert !StartsWith(t, "{pct}");
      assert t[1..] == s[1..] + rest;
      FormatPctBraceFree(s[1..], rest, pct);
    } else {
      assert s + rest == rest;
    }
  }

  /** The field is replaced by the number, wherever it stands between field-free text. */
  lemma FormatPctField(before: string, after: string, pct: nat)
    requires BraceFree(before) && BraceFree(after)
    ensures FormatPct(before + "{pct}" + after, pct) == before + NatToDecimal(pct) + after
  {
    FormatPctBraceFree(before, "{pct}" + after, pct);
    assert before + "{pct}" + after == before + ("{pct}" + after);
    var t := "{pct}" + after;
    assert StartsWith(t, "{pct}");
    assert t[5..] == after;
    FormatPctBraceFree(after, [], pct);
    assert after + [] == after;
  }

  // ---------------------------------------------------------------------------
  // The string tables of the two programs

  const TkEn: Table := map[
    "window_title" := "kodeOS Loader",
    "serial_port_label" := "Serial Port:",
    "firmware_label" := "Firmware (.bin):",
    "flash_app_checkbox" := "Flash Kode OS App (0x400000)",
    "refresh_button" := "Refresh",
    "browse_button" := "Browse",
    "load_button" := "Flash",
    "load_button_loading" := "Flashing...",
    "erase_button" := "Erase",
    "erase_button_erasing" := "Erasing...",
    "ports_loading" := "Loading ports...",
    "no_ports_found" := "No USB ports found",
    "browse_dialog_title" := "Select firmware .bin",
    "status_ready" := "Ready to flash",
    "status_starting" := "Starting flash...",
    "status_erasing" := "Erasing flash...",
    "flashing_progress" := "Flashing ({pct}%)...",
    "error_missing_params" := "Select serial port and firmware .bin file.",
    "error_missing_port" := "Please select a serial port.",
    "flash_success" := "Flash completed successfully.",
    "flash_error_generic" := "Error during flash. Check logs and retry.",
    "erase_success" := "Flash erased successfully.",
    "erase_error" := "Error during erase. Check logs.",
    "erase_confirm_title" := "Confirm Erase",
    "erase_confirm_message" := "This will ERASE THE ENTIRE FLASH on the device!\nThis cannot be undone.\n\nAre you sure?",
    "show_logs_label" := "Show Logs",
    "hide_logs_label" := "Hide Logs"
  ]

  const TkEs: Table := map[
    "window_title" := "Cargador kodeOS",
    "serial_port_label" := "Puerto Serial:",
    "firmware_label" := "Firmware (.bin):",
    "flash_app_checkbox" := "Flashear App Kode OS (0x400000)",
    "refresh_button" := "Refrescar",
    "browse_button" := "Buscar",
    "load_button" := "Flashear",
    "load_button_loading" := "Flasheando...",
    "erase_button" := "Borrar",
    "erase_button_erasing" := "Borrando...",
    "ports_loading" := "Buscando puertos...",
    "no_ports_found" := "No se encontraron puertos USB",
    "browse_dialog_title" := "Seleccionar firmware .bin",
    "status_ready" := "Listo para flashear",
    "status_starting" := "Iniciando flasheo...",
    "status_erasing" := "Borrando flash...",
    "flashing_progress" := "Flasheando ({pct}%)...",
    "error_missing_params" := "Seleccione un puerto serial y un archivo .bin.",
    "error_missing_port" := "Por favor, seleccione un puerto serial.",
    "flash_success" := "Flasheo completado con éxito.",
    "flash_error_generic" := "Error durante el flasheo. Revise los logs e intente de nuevo.",
    "erase_success" := "Flash borrada con éxito.",
    "erase_error" := "Error durante el borrado. Revise los logs.",
    "erase_confirm_title" := "Confirmar Borrado",
    "erase_confirm_message" := "¡Esto BORRARÁ TODA LA FLASH del dispositivo!\nEsta acción no se puede deshacer.\n\n¿Está seguro?",
    "show_logs_label" := "Mostrar Logs",
    "hide_logs_label" := "Ocultar Logs"
  ]
  const FletEn: Table := map[
    "window_title" := "kodeOS Loader",
    "serial_port_label" := "Serial Port:",
    "firmware_label" := "Firmware (.bin):",
    "flash_app_checkbox" := "Flash Kode OS App (0x400000)",
    "refresh_button" := "Refresh",
    "browse_button" := "Browse",
    "load_button" := "Flash",
    "load_button_loading" := "Flashing...",
    "erase_button" := "Erase",
    "erase_button_erasing" := "Erasing...",
    "ports_loading" := "Loading ports...",
    "no_ports_found" := "No USB ports found",
    "select_port_prompt" := "Select your upload USB port",
    "browse_dialog_title" := "Select firmware .bin",
    "status_ready" := "Ready to flash",
    "status_starting" := "Starting flash...",
    "status_erasing" := "Erasing flash...",
    "status_erasing_critical" := "ERASING FLASH... DO NOT DISCONNECT THE DEVICE!",
    "flashing_progress" := "Flashing ({pct}%)...",
    "error_missing_params" := "Select serial port and firmware .bin file.",
    "error_missing_port" := "Please select a serial port.",
    "flash_success" := "Flash completed successfully.",
    "flash_error_generic" := "Error during flash. Check logs and retry.",
    "erase_success" := "Flash erased successfully.",
    "erase_error" := "Error during erase. Check logs.",
    "erase_confirm_title" := "Confirm Erase",
    "erase_confirm_message" := "This will ERASE THE ENTIRE FLASH on the device!\nThis cannot be undone.\n\nAre you sure?",
    "show_logs_label" := "Show Logs",
    "hide_logs_label" := "Hide Logs"
  ]

  const FletEs: Table := map[
    "window_title" := "Cargador kodeOS",
    "serial_port_label" := "Puerto Serial:",
    "firmware_label" := "Firmware (.bin):",
    "flash_app_checkbox" := "Flashear App Kode OS (0x400000)",
    "refresh_button" := "Refrescar",
    "browse_button" := "Buscar",
    "load_button" := "Flashear",
    "load_button_loading" := "Flasheando...",
    "erase_button" := "Borrar",
    "erase_button_erasing" := "Borrando...",
    "ports_loading" := "Buscando puertos...",
    "no_ports_found" := "No se encontraron puertos USB",
    "select_port_prompt" := "Seleccione su puerto USB",
    "browse_dialog_title" := "Seleccionar firmware .bin",
    "status_ready" := "Listo para flashear",
    "status_starting" := "Iniciando flasheo...",
    "status_erasing" := "Borrando flash...",
    "status_erasing_critical" := "BORRANDO FLASH... ¡NO DESCONECTE EL DISPOSITIVO!",
    "flashing_progress" := "Flasheando ({pct}%)...",
    "error_missing_params" := "Seleccione un puerto serial y un archivo .bin.",
    "error_missing_port" := "Por favor, seleccione un puerto serial.",
    "flash_success" := "Flasheo completado con éxito.",
    "flash_error_generic" := "Error durante el flasheo. Revise los logs e intente de nuevo.",
    "erase_success" := "Flash borrada con éxito.",
    "erase_error" := "Error durante el borrado. Revise los logs.",
    "erase_confirm_title" := "Confirmar Borrado",
    "erase_confirm_message" := "¡Esto BORRARÁ TODA LA FLASH del dispositivo!\nEsta acción no se puede deshacer.\n\n¿Está seguro?",
    "show_logs_label" := "Mostrar Logs",
    "hide_logs_label" := "Ocultar Logs"
  ]

  const FletDe: Table := map[
    "window_title" := "kodeOS Lader",
    "serial_port_label" := "Serieller Port:",
    "firmware_label" := "Firmware (.bin):",
    "flash_app_checkbox" := "Kode OS App flashen (0x400000)",
    "refresh_button" := "Neu laden",
    "browse_button" := "Öffnen",
    "load_button" := "Flashen",
    "load_button_loading" := "Flashe...",
    "erase_button" := "Löschen",
    "erase_button_erasing" := "Lösche...",
    "ports_loading" := "Lade Ports...",
    "no_ports_found" := "Keine USB-Ports gefunden",
    "select_port_prompt" := "Wählen Sie Ihren USB-Port",
    "browse_dialog_title" := "Firmware .bin auswählen",
    "status_ready" := "Bereit zum Flashen",
    "status_starting" := "Starte Flash-Vorgang...",
    "status_erasing" := "Lösche Flash...",
    "status_erasing_critical" := "LÖSCHE FLASH... GERÄT NICHT TRENNEN!",
    "flashing_progress" := "Flashe ({pct}%)...",
    "error_missing_params" := "Seriellen Port und Firmware .bin-Datei auswählen.",
    "error_missing_port" := "Bitte einen seriellen Port auswählen.",
    "flash_success" := "Flash erfolgreich abgeschlossen.",
    "flash_error_generic" := "Fehler beim Flashen. Logs prüfen und erneut versuchen.",
    "erase_success" := "Flash erfolgreich gelöscht.",
    "erase_error" := "Fehler beim Löschen. Logs prüfen.",
    "erase_confirm_title" := "Löschen bestätigen",
    "erase_confirm_message" := "Dies LÖSCHT DEN GESAMTEN FLASH auf dem Gerät!\nDies kann nicht rückgängig gemacht werden.\n\nSind Sie sicher?",
    "show_logs_label" := "Logs anzeigen",
    "hide_logs_label" := "Logs ausblenden"
  ]
  /** kodeOS.py's `LANGUAGES`: English and Spanish. */
  const TkLanguages: Tables := map["en" := TkEn, "es" := TkEs]

  /** kodeOS_flet.py's `LANGUAGES`: English, Spanish and German. */
  const FletLanguages: Tables := map["en" := FletEn, "es" := FletEs, "de" := FletDe]

  /** Every language of each program translates exactly the English keys, so a
      lookup of a known key in a known language never shows the placeholder. */
  lemma TkSpanishComplete()
    ensures TkLanguages["es"].Keys == TkLanguages["en"].Keys
  {
  }

  lemma FletSpanishComplete()
    ensures FletLanguages["es"].Keys == FletLanguages["en"].Keys
  {
  }

  lemma FletGermanComplete()
    ensures FletLanguages["de"].Keys == FletLanguages["en"].Keys
  {
  }
}
