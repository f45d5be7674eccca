/** The database behind the handlers: the entity rows, the relationship rules
    of `OnModelCreating`, and the store operations on each table.

    - Artist 1-N Song through the required foreign key `Musica.artistaId`,
      with a cascading delete: deleting an artist deletes its songs.
    - Song N-M Genre through a join table; a song keeps the ids of the genres
      it is linked to. Deleting either side removes only the join rows.
    - The ratings of an artist are owned by it (`Artista.avaliacoes`).
 */
module Banco {
  import opened Store

  /** The id of an entity that has not been saved yet. Saved rows have ids from 1. */
  const NovoId := 0

  datatype Avaliacao = Avaliacao(artistaId: int, pessoaId: int, nota: int)

  datatype Artista = Artista(id: int, nome: string, bio: string, fotoPerfil: string, avaliacoes: seq<Avaliacao>)

  datatype Musica = Musica(id: int, nome: string, anoLancamento: int, artistaId: int, generoIds: set<int>)

  datatype Genero = Genero(id: int, nome: string, descricao: string)

  /** A registered person (`PessoaComAcesso`): its id and its e-mail. */
  datatype Pessoa = Pessoa(id: int, email: string)

  function IdArtista(a: Artista): int { a.id }
  function IdMusica(m: Musica): int { m.id }
  function IdGenero(g: Genero): int { g.id }

  function ArtistaComId(id: int): Artista -> bool { (a: Artista) => a.id == id }
  function MusicaComId(id: int): Musica -> bool { (m: Musica) => m.id == id }
  function GeneroComId(id: int): Genero -> bool { (g: Genero) => g.id == id }

  function DoArtista(artistaId: int): Musica -> bool { (m: Musica) => m.artistaId == artistaId }
  function ForaDoArtista(artistaId: int): Musica -> bool { (m: Musica) => m.artistaId != artistaId }

  ghost predicate TemArtista(artistas: seq<Artista>, id: int)
  {
    exists i :: 0 <= i < |artistas| && artistas[i].id == id
  }

  ghost predicate TemGenero(generos: seq<Genero>, id: int)
  {
    exists i :: 0 <= i < |generos| && generos[i].id == id
  }

  /** The songs of an artist: exactly the stored songs carrying its id (`Artista.Musicas`). */
  function MusicasDoArtista(musicas: seq<Musica>, artistaId: int): (r: seq<Musica>)
    ensures forall i :: 0 <= i < |r| ==> r[i] in musicas && r[i].artistaId == artistaId
    ensures forall i :: 0 <= i < |musicas| && musicas[i].artistaId == artistaId ==> musicas[i] in r
  {
    Filter(musicas, DoArtista(artistaId))
  }

  /** The cascade rule: the songs that survive deleting artist `artistaId`. */
  function CascataArtista(musicas: seq<Musica>, artistaId: int): (r: seq<Musica>)
    ensures forall i :: 0 <= i < |r| ==> r[i] in musicas && r[i].artistaId != artistaId
    ensures forall i :: 0 <= i < |musicas| && musicas[i].artistaId != artistaId ==> musicas[i] in r
  {
    Filter(musicas, ForaDoArtista(artistaId))
  }

  /** Deleting a genre deletes its join rows only: every song stays and loses that link. */
  function DesvincularGenero(musicas: seq<Musica>, generoId: int): (r: seq<Musica>)
    ensures |r| == |musicas|
    ensures forall i :: 0 <= i < |r| ==> r[i].id == musicas[i].id && r[i].artistaId == musicas[i].artistaId
    ensures forall i :: 0 <= i < |r| ==> generoId !in r[i].generoIds
    ensures forall i :: 0 <= i < |r| ==>
      r[i].nome == musicas[i].nome && r[i].anoLancamento == musicas[i].anoLancamento &&
      forall g :: g != generoId ==> (g in r[i].generoIds <==> g in musicas[i].generoIds)
  {
    seq(|musicas|, i requires 0 <= i < |musicas| => musicas[i].(generoIds := musicas[i].generoIds - {generoId}))
  }

  /** At most one rating per (artist, person) pair. */
  ghost predicate UmaPorPessoa(avs: seq<Avaliacao>)
  {
    forall j, k :: 0 <= j < k < |avs| ==> !(avs[j].artistaId == avs[k].artistaId && avs[j].pessoaId == avs[k].pessoaId)
  }

  /** The ratings of an artist carry its id, at most one per person. */
  ghost predicate AvaliacoesValidas(a: Artista)
  {
    && (forall j :: 0 <= j < |a.avaliacoes| ==> a.avaliacoes[j].artistaId == a.id)
    && UmaPorPessoa(a.avaliacoes)
  }

  /** A table's primary keys: unique, from 1, below the next id to hand out. */
  ghost predicate Chaves<T>(s: seq<T>, key: T -> int, proximo: int)
  {
    && 1 <= proximo
    && UniqueKeys(s, key)
    && forall i :: 0 <= i < |s| ==> 1 <= key(s[i]) < proximo
  }

  /** Number of entries of `gs` that have not been saved yet. */
  function ContarNovos(gs: seq<Genero>): (n: nat)
    ensures n <= |gs|
  {
    if gs == [] then 0
    else ContarNovos(gs[..|gs| - 1]) + (if gs[|gs| - 1].id == NovoId then 1 else 0)
  }

  /** The rows inserted when a song linked to `gs` is saved: one per unsaved genre,
      in list order, with the ids `proximo`, `proximo + 1`, ... */
  function NovosGeneros(gs: seq<Genero>, proximo: int): (r: seq<Genero>)
    ensures |r| == ContarNovos(gs)
    ensures forall j :: 0 <= j < |r| ==> r[j].id == proximo + j
  {
    if gs == [] then []
    else
      var pre := gs[..|gs| - 1];
      var g := gs[|gs| - 1];
      NovosGeneros(pre, proximo) + (if g.id == NovoId then [g.(id := proximo + ContarNovos(pre))] else [])
  }

  /** The id entry `i` of `gs` has once the song is saved. */
  function IdSalvo(gs: seq<Genero>, proximo: int, i: nat): int
    requires i < |gs|
  {
    if gs[i].id == NovoId then proximo + ContarNovos(gs[..i]) else gs[i].id
  }

  /** The genre links of a song saved with the genre list `gs`: the saved id of
      every entry. */
  function Vinculos(gs: seq<Genero>, proximo: int): (r: set<int>)
    ensures forall i :: 0 <= i < |gs| ==> IdSalvo(gs, proximo, i) in r
  {
    if gs == [] then {}
    else
      var pre := gs[..|gs| - 1];
      assert forall i :: 0 <= i < |pre| ==> IdSalvo(pre, proximo, i) == IdSalvo(gs, proximo, i) by {
        forall i | 0 <= i < |pre| ensures IdSalvo(pre, proximo, i) == IdSalvo(gs, proximo, i) {
          assert pre[..i] == gs[..i];
        }
      }
      Vinculos(pre, proximo) + {IdSalvo(gs, proximo, |gs| - 1)}
  }

  /** Every link of a song saved with `gs` is the saved id of some entry of `gs`. */
  lemma {:induction false} VinculoDeEntrada(gs: seq<Genero>, proximo: int, g: int)
    requires g in Vinculos(gs, proximo)
    ensures exists n :: 0 <= n < |gs| && IdSalvo(gs, proximo, n) == g
  {
    var pre := gs[..|gs| - 1];
    if g != IdSalvo(gs, proximo, |gs| - 1) {
      VinculoDeEntrada(pre, proximo, g);
      var n :| 0 <= n < |pre| && IdSalvo(pre, proximo, n) == g;
      assert pre[..n] == gs[..n];
      assert IdSalvo(gs, proximo, n) == g;
    }
  }

  lemma {:induction false} ContarNovosPrefixo(gs: seq<Genero>, i: nat, j: nat)
    requires i <= j <= |gs|
    ensures ContarNovos(gs[..i]) <= ContarNovos(gs[..j])
    ensures i < j && gs[i].id == NovoId ==> ContarNovos(gs[..i]) < ContarNovos(gs[..j])
    decreases j - i
  {
    if i < j {
      ContarNovosPrefixo(gs, i, j - 1);
      assert gs[..j][..j - 1] == gs[..j - 1];
      if i == j - 1 {
        assert gs[..j][j - 1] == gs[i];
      }
    }
  }

  /** Unsaved entry `i` of `gs` becomes new row number `ContarNovos(gs[..i])`,
      with the entry's name and description and a fresh id. */
  lemma {:induction false} NovoGeneroSalvo(gs: seq<Genero>, proximo: int, i: nat)
    requires i < |gs| && gs[i].id == NovoId
    ensures ContarNovos(gs[..i]) < |NovosGeneros(gs, proximo)|
    ensures NovosGeneros(gs, proximo)[ContarNovos(gs[..i])] == gs[i].(id := IdSalvo(gs, proximo, i))
  {
    var n := |gs|;
    var pre := gs[..n - 1];
    assert gs[..n] == gs;
    if i == n - 1 {
      assert gs[..i] == pre;
    } else {
      assert pre[..i] == gs[..i];
      NovoGeneroSalvo(pre, proximo, i);
      assert NovosGeneros(gs, proximo)[..|NovosGeneros(pre, proximo)|] == NovosGeneros(pre, proximo);
    }
    ContarNovosPrefixo(gs, i, n);
  }

  /** A snapshot of every table and id counter. */
  datatype Tabelas = Tabelas(
    artistas: seq<Artista>,
    musicas: seq<Musica>,
    generos: seq<Genero>,
    pessoas: seq<Pessoa>,
    proximoArtistaId: int,
    proximoMusicaId: int,
    proximoGeneroId: int)

  /** Every stored artist keeps the rating rule. */
  ghost predicate AvaliacoesOk(artistas: seq<Artista>)
  {
    forall i :: 0 <= i < |artistas| ==> AvaliacoesValidas(artistas[i])
  }

  /** The required foreign key Song -> Artist. */
  ghost predicate DonosExistem(artistas: seq<Artista>, musicas: seq<Musica>)
  {
    forall i :: 0 <= i < |musicas| ==> TemArtista(artistas, musicas[i].artistaId)
  }

  /** The join table Song N-M Genre names stored genres only. */
  ghost predicate VinculosExistem(generos: seq<Genero>, musicas: seq<Musica>)
  {
    forall i, g :: 0 <= i < |musicas| && g in musicas[i].generoIds ==> TemGenero(generos, g)
  }

  /** The invariant every store operation keeps: primary keys, the rating rule,
      and the two foreign keys of the relationships. */
  ghost predicate Consistente(t: Tabelas)
  {
    && Chaves(t.artistas, IdArtista, t.proximoArtistaId)
    && Chaves(t.musicas, IdMusica, t.proximoMusicaId)
    && Chaves(t.generos, IdGenero, t.proximoGeneroId)
    && AvaliacoesOk(t.artistas)
    && DonosExistem(t.artistas, t.musicas)
    && VinculosExistem(t.generos, t.musicas)
  }

  /** Appending rows numbered from the counter on keeps the primary key. */
  lemma ChavesAppend<T>(s: seq<T>, novos: seq<T>, key: T -> int, proximo: int)
    requires Chaves(s, key, proximo)
    requires forall j :: 0 <= j < |novos| ==> key(novos[j]) == proximo + j
    ensures Chaves(s + novos, key, proximo + |novos|)
  {
    AppendFreshKeys(s, novos, key, proximo);
    var r := s + novos;
    forall i | 0 <= i < |r| ensures 1 <= key(r[i]) < proximo + |novos| {
      if i >= |s| {
        assert r[i] == novos[i - |s|];
      }
    }
  }

  /** Removing rows keeps the primary key. */
  lemma ChavesFilter<T>(s: seq<T>, keep: T -> bool, key: T -> int, proximo: int)
    requires Chaves(s, key, proximo)
    ensures Chaves(Filter(s, keep), key, proximo)
  {
    FilterUniqueKeys(s, keep, key);
    var r := Filter(s, keep);
    forall i | 0 <= i < |r| ensures 1 <= key(r[i]) < proximo {
      var k :| 0 <= k < |s| && s[k] == r[i];
    }
  }

  /** Rewriting rows without touching their keys keeps the primary key. */
  lemma ChavesMesmasChaves<T>(s: seq<T>, r: seq<T>, key: T -> int, proximo: int)
    requires Chaves(s, key, proximo)
    requires |r| == |s| && forall i :: 0 <= i < |s| ==> key(r[i]) == key(s[i])
    ensures Chaves(r, key, proximo)
  {
    forall i, j | 0 <= i < j < |r| ensures key(r[i]) != key(r[j]) {
      assert key(s[i]) != key(s[j]);
    }
  }

  /** Adding an artist keeps the tables consistent. */
  lemma AdicionarArtistaPreserva(t: Tabelas, nome: string, bio: string, fotoPerfil: string)
    requires Consistente(t)
    ensures Consistente(t.(artistas := t.artistas + [Artista(t.proximoArtistaId, nome, bio, fotoPerfil, [])],
                           proximoArtistaId := t.proximoArtistaId + 1))
  {
    var novo := [Artista(t.proximoArtistaId, nome, bio, fotoPerfil, [])];
    var artistas := t.artistas + novo;
    ChavesAppend(t.artistas, novo, IdArtista, t.proximoArtistaId);
    forall i | 0 <= i < |t.musicas| ensures TemArtista(artistas, t.musicas[i].artistaId) {
      var k :| 0 <= k < |t.artistas| && t.artistas[k].id == t.musicas[i].artistaId;
      assert artistas[k] == t.artistas[k];
    }
    assert AvaliacoesOk(artistas) by {
      forall i | 0 <= i < |artistas| ensures AvaliacoesValidas(artistas[i]) {
        if i < |t.artistas| {
          assert artistas[i] == t.artistas[i];
        }
      }
    }
  }

  /** Replacing a stored artist by one with the same id and valid ratings keeps
      the tables consistent. */
  lemma AtualizarArtistaPreserva(t: Tabelas, a: Artista)
    requires Consistente(t)
    requires TemArtista(t.artistas, a.id) && AvaliacoesValidas(a)
    ensures Consistente(t.(artistas := Atualizar(t.artistas, IdArtista, a)))
  {
    var artistas := Atualizar(t.artistas, IdArtista, a);
    assert forall i :: 0 <= i < |artistas| ==> artistas[i].id == t.artistas[i].id;
    ChavesMesmasChaves(t.artistas, artistas, IdArtista, t.proximoArtistaId);
    forall i | 0 <= i < |t.musicas| ensures TemArtista(artistas, t.musicas[i].artistaId) {
      var k :| 0 <= k < |t.artistas| && t.artistas[k].id == t.musicas[i].artistaId;
      assert artistas[k].id == t.artistas[k].id;
    }
  }

  /** After the cascade every remaining song still has its artist. */
  lemma CascataDonos(artistas: seq<Artista>, musicas: seq<Musica>, id: int)
    requires DonosExistem(artistas, musicas)
    ensures DonosExistem(Deletar(artistas, IdArtista, id), CascataArtista(musicas, id))
  {
    var as' := Deletar(artistas, IdArtista, id);
    var ms' := CascataArtista(musicas, id);
    forall i | 0 <= i < |ms'| ensures TemArtista(as', ms'[i].artistaId) {
      var m :| 0 <= m < |musicas| && musicas[m] == ms'[i];
      assert ForaDoArtista(id)(ms'[i]);
      assert ms'[i].artistaId != id;
      assert TemArtista(artistas, musicas[m].artistaId);
      var k :| 0 <= k < |artistas| && artistas[k].id == ms'[i].artistaId;
      assert IdArtista(artistas[k]) != id;
      assert KeyIsNot(IdArtista, id)(artistas[k]);
      var k' :| 0 <= k' < |as'| && as'[k'] == artistas[k];
    }
  }

  /** Removing songs keeps the join table pointing at stored genres. */
  lemma FilterVinculos(generos: seq<Genero>, musicas: seq<Musica>, keep: Musica -> bool)
    requires VinculosExistem(generos, musicas)
    ensures VinculosExistem(generos, Filter(musicas, keep))
  {
    var ms' := Filter(musicas, keep);
    forall i, g | 0 <= i < |ms'| && g in ms'[i].generoIds ensures TemGenero(generos, g) {
      var m :| 0 <= m < |musicas| && musicas[m] == ms'[i];
    }
  }

  /** Removing artists keeps the rating rule of the others. */
  lemma FilterAvaliacoes(artistas: seq<Artista>, keep: Artista -> bool)
    requires AvaliacoesOk(artistas)
    ensures AvaliacoesOk(Filter(artistas, keep))
  {
    var as' := Filter(artistas, keep);
    forall i | 0 <= i < |as'| ensures AvaliacoesValidas(as'[i]) {
      var k :| 0 <= k < |artistas| && artistas[k] == as'[i];
    }
  }

  /** Deleting an artist together with its songs keeps the tables consistent:
      no remaining song is left without its artist. */
  lemma DeletarArtistaPreserva(t: Tabelas, id: int)
    requires Consistente(t)
    ensures Consistente(t.(artistas := Deletar(t.artistas, IdArtista, id),
                           musicas := CascataArtista(t.musicas, id)))
  {
    ChavesFilter(t.artistas, KeyIsNot(IdArtista, id), IdArtista, t.proximoArtistaId);
    ChavesFilter(t.musicas, ForaDoArtista(id), IdMusica, t.proximoMusicaId);
    FilterAvaliacoes(t.artistas, KeyIsNot(IdArtista, id));
    FilterVinculos(t.generos, t.musicas, ForaDoArtista(id));
    CascataDonos(t.artistas, t.musicas, id);
  }

  /** Every link of a song saved with the genre list `gs` names a row of the genre
      table once the unsaved entries of `gs` are inserted. */
  lemma VinculosSalvos(generos: seq<Genero>, gs: seq<Genero>, proximo: int)
    requires forall i :: 0 <= i < |gs| ==> gs[i].id == NovoId || gs[i] in generos
    ensures forall g :: g in Vinculos(gs, proximo) ==> TemGenero(generos + NovosGeneros(gs, proximo), g)
  {
    var novos := NovosGeneros(gs, proximo);
    var todos := generos + novos;
    forall g | g in Vinculos(gs, proximo) ensures TemGenero(todos, g) {
      VinculoDeEntrada(gs, proximo, g);
      var n :| 0 <= n < |gs| && IdSalvo(gs, proximo, n) == g;
      if gs[n].id == NovoId {
        NovoGeneroSalvo(gs, proximo, n);
        var c := ContarNovos(gs[..n]);
        assert todos[|generos| + c] == novos[c];
      } else {
        var k :| 0 <= k < |generos| && generos[k] == gs[n];
        assert todos[k] == generos[k];
      }
    }
  }

  /** Inserting genre rows keeps every existing link valid. */
  lemma VinculosMaisGeneros(generos: seq<Genero>, extra: seq<Genero>, musicas: seq<Musica>)
    requires VinculosExistem(generos, musicas)
    ensures VinculosExistem(generos + extra, musicas)
  {
    forall i, g | 0 <= i < |musicas| && g in musicas[i].generoIds ensures TemGenero(generos + extra, g) {
      assert TemGenero(generos, g);
      var k :| 0 <= k < |generos| && generos[k].id == g;
      assert (generos + extra)[k] == generos[k];
    }
  }

  /** Appending a song whose links name stored genres keeps the join table valid. */
  lemma VinculosNovaMusica(generos: seq<Genero>, musicas: seq<Musica>, m: Musica)
    requires VinculosExistem(generos, musicas)
    requires forall g :: g in m.generoIds ==> TemGenero(generos, g)
    ensures VinculosExistem(generos, musicas + [m])
  {
    var ms := musicas + [m];
    forall i, g | 0 <= i < |ms| && g in ms[i].generoIds ensures TemGenero(generos, g) {
      if i < |musicas| {
        assert ms[i] == musicas[i];
      }
    }
  }

  /** Appending a song of a stored artist keeps the Song -> Artist key valid. */
  lemma DonosNovaMusica(artistas: seq<Artista>, musicas: seq<Musica>, m: Musica)
    requires DonosExistem(artistas, musicas)
    requires TemArtista(artistas, m.artistaId)
    ensures DonosExistem(artistas, musicas + [m])
  {
    var ms := musicas + [m];
    forall i | 0 <= i < |ms| ensures TemArtista(artistas, ms[i].artistaId) {
      if i < |musicas| {
        assert ms[i] == musicas[i];
      }
    }
  }

  /** The primary keys after saving song `m` with the new genre rows `novos`. */
  lemma NovaMusicaChaves(t: Tabelas, m: Musica, novos: seq<Genero>)
    requires Consistente(t)
    requires m.id == t.proximoMusicaId
    requires forall j :: 0 <= j < |novos| ==> novos[j].id == t.proximoGeneroId + j
    ensures Chaves(t.musicas + [m], IdMusica, t.proximoMusicaId + 1)
    ensures Chaves(t.generos + novos, IdGenero, t.proximoGeneroId + |novos|)
  {
    ChavesAppend(t.generos, novos, IdGenero, t.proximoGeneroId);
    ChavesAppend(t.musicas, [m], IdMusica, t.proximoMusicaId);
  }

  /** The foreign keys after saving song `m` of a stored artist with the new genre
      rows `novos`, when every link of `m` names a genre row. */
  lemma NovaMusicaVinculos(t: Tabelas, m: Musica, novos: seq<Genero>)
    requires Consistente(t)
    requires TemArtista(t.artistas, m.artistaId)
    requires forall g :: g in m.generoIds ==> TemGenero(t.generos + novos, g)
    ensures VinculosExistem(t.generos + novos, t.musicas + [m])
    ensures DonosExistem(t.artistas, t.musicas + [m])
  {
    VinculosMaisGeneros(t.generos, novos, t.musicas);
    VinculosNovaMusica(t.generos + novos, t.musicas, m);
    DonosNovaMusica(t.artistas, t.musicas, m);
  }

  /** Saving song `m` of a stored artist, with the new genre rows `novos` numbered
      from the genre counter on, keeps the tables consistent when every link of
      `m` names a genre row. */
  lemma NovaMusicaPreserva(t: Tabelas, m: Musica, novos: seq<Genero>)
    requires Consistente(t)
    requires m.id == t.proximoMusicaId
    requires TemArtista(t.artistas, m.artistaId)
    requires forall j :: 0 <= j < |novos| ==> novos[j].id == t.proximoGeneroId + j
    requires forall g :: g in m.generoIds ==> TemGenero(t.generos + novos, g)
    ensures Consistente(t.(
      musicas := t.musicas + [m],
      generos := t.generos + novos,
      proximoMusicaId := t.proximoMusicaId + 1,
      proximoGeneroId := t.proximoGeneroId + |novos|))
  {
    NovaMusicaChaves(t, m, novos);
    NovaMusicaVinculos(t, m, novos);
  }

  /** Replacing a stored song by one with the same id whose artist and genres exist
      keeps the tables consistent. */
  lemma AtualizarMusicaPreserva(t: Tabelas, m: Musica)
    requires Consistente(t)
    requires TemArtista(t.artistas, m.artistaId)
    requires forall g :: g in m.generoIds ==> TemGenero(t.generos, g)
    ensures Consistente(t.(musicas := Atualizar(t.musicas, IdMusica, m)))
  {
    var musicas := Atualizar(t.musicas, IdMusica, m);
    assert forall i :: 0 <= i < |musicas| ==> musicas[i].id == t.musicas[i].id;
    ChavesMesmasChaves(t.musicas, musicas, IdMusica, t.proximoMusicaId);
  }

  /** Deleting a song keeps the tables consistent (no genre depends on a song). */
  lemma DeletarMusicaPreserva(t: Tabelas, id: int)
    requires Consistente(t)
    ensures Consistente(t.(musicas := Deletar(t.musicas, IdMusica, id)))
  {
    var musicas := Deletar(t.musicas, IdMusica, id);
    ChavesFilter(t.musicas, KeyIsNot(IdMusica, id), IdMusica, t.proximoMusicaId);
    FilterVinculos(t.generos, t.musicas, KeyIsNot(IdMusica, id));
    forall i | 0 <= i < |musicas| ensures TemArtista(t.artistas, musicas[i].artistaId) {
      var m :| 0 <= m < |t.musicas| && t.musicas[m] == musicas[i];
    }
  }

  /** Adding a genre keeps the tables consistent. */
  lemma AdicionarGeneroPreserva(t: Tabelas, nome: string, descricao: string)
    requires Consistente(t)
    ensures Consistente(t.(generos := t.generos + [Genero(t.proximoGeneroId, nome, descricao)],
                           proximoGeneroId := t.proximoGeneroId + 1))
  {
    var novo := [Genero(t.proximoGeneroId, nome, descricao)];
    ChavesAppend(t.generos, novo, IdGenero, t.proximoGeneroId);
    VinculosMaisGeneros(t.generos, novo, t.musicas);
  }

  /** Deleting a genre removes its join rows, so every remaining link still names a genre row. */
  lemma DesvincularVinculos(generos: seq<Genero>, musicas: seq<Musica>, id: int)
    requires VinculosExistem(generos, musicas)
    ensures VinculosExistem(Deletar(generos, IdGenero, id), DesvincularGenero(musicas, id))
  {
    var gs' := Deletar(generos, IdGenero, id);
    var ms' := DesvincularGenero(musicas, id);
    forall i, g | 0 <= i < |ms'| && g in ms'[i].generoIds ensures TemGenero(gs', g) {
      assert g in musicas[i].generoIds && g != id;
      assert TemGenero(generos, g);
      var k :| 0 <= k < |generos| && generos[k].id == g;
      assert KeyIsNot(IdGenero, id)(generos[k]);
      var k' :| 0 <= k' < |gs'| && gs'[k'] == generos[k];
    }
  }

  /** Deleting a genre together with its join rows keeps the tables consistent. */
  lemma DeletarGeneroPreserva(t: Tabelas, id: int)
    requires Consistente(t)
    ensures Consistente(t.(generos := Deletar(t.generos, IdGenero, id),
                           musicas := DesvincularGenero(t.musicas, id)))
  {
    var musicas := DesvincularGenero(t.musicas, id);
    ChavesFilter(t.generos, KeyIsNot(IdGenero, id), IdGenero, t.proximoGeneroId);
    ChavesMesmasChaves(t.musicas, musicas, IdMusica, t.proximoMusicaId);
    DesvincularVinculos(t.generos, t.musicas, id);
    forall i | 0 <= i < |musicas| ensures TemArtista(t.artistas, musicas[i].artistaId) {
      assert t.musicas[i].artistaId == musicas[i].artistaId;
    }
  }

  /** The cascade removes exactly the songs of the deleted artist: none of its songs
      is left, and every other artist keeps all of its songs, in order. */
  lemma CascataRemoveSoOArtista(musicas: seq<Musica>, id: int, outro: int)
    requires outro != id
    ensures MusicasDoArtista(CascataArtista(musicas, id), id) == []
    ensures MusicasDoArtista(CascataArtista(musicas, id), outro) == MusicasDoArtista(musicas, outro)
  {
    var restantes := CascataArtista(musicas, id);
    assert forall j :: 0 <= j < |restantes| ==> !DoArtista(id)(restantes[j]);
    FilterNone(restantes, DoArtista(id));
    FilterFilter(musicas, ForaDoArtista(id), DoArtista(outro));
  }

  /** In a consistent store every song belongs to exactly one stored artist. */
  lemma DonoUnico(t: Tabelas, i: nat)
    requires Consistente(t) && i < |t.musicas|
    ensures exists k :: 0 <= k < |t.artistas| && t.artistas[k].id == t.musicas[i].artistaId
    ensures forall k1, k2 ::
      (0 <= k1 < |t.artistas| && 0 <= k2 < |t.artistas| &&
       t.artistas[k1].id == t.musicas[i].artistaId && t.artistas[k2].id == t.musicas[i].artistaId) ==> k1 == k2
  {
    assert TemArtista(t.artistas, t.musicas[i].artistaId);
    forall k1, k2 | 0 <= k1 < |t.artistas| && 0 <= k2 < |t.artistas| &&
      t.artistas[k1].id == t.musicas[i].artistaId && t.artistas[k2].id == t.musicas[i].artistaId
      ensures k1 == k2
    {
      assert k1 < k2 ==> IdArtista(t.artistas[k1]) != IdArtista(t.artistas[k2]);
      assert k2 < k1 ==> IdArtista(t.artistas[k2]) != IdArtista(t.artistas[k1]);
    }
  }

  /** The database context shared by all the stores of one request. */
  class RockHubContext {
    var artistas: seq<Artista>
    var musicas: seq<Musica>
    var generos: seq<Genero>
    var pessoas: seq<Pessoa>
    var proximoArtistaId: int
    var proximoMusicaId: int
    var proximoGeneroId: int

    ghost function Conteudo(): Tabelas
      reads this
    {
      Tabelas(artistas, musicas, generos, pessoas, proximoArtistaId, proximoMusicaId, proximoGeneroId)
    }

    ghost predicate Valid()
      reads this
    {
      Consistente(Conteudo())
    }

    /** An empty catalogue over a given set of registered people. */
    constructor (pessoas: seq<Pessoa>)
      ensures Valid()
      ensures Conteudo() == Tabelas([], [], [], pessoas, 1, 1, 1)
    {
      artistas, musicas, generos := [], [], [];
      this.pessoas := pessoas;
      proximoArtistaId, proximoMusicaId, proximoGeneroId := 1, 1, 1;
    }

    /** `DAL<Artista>.Adicionar`: a new artist row with a fresh id and no ratings. */
    method AdicionarArtista(nome: string, bio: string, fotoPerfil: string) returns (id: int)
      requires Valid()
      modifies this
      ensures Valid()
      ensures id == old(proximoArtistaId)
      ensures Conteudo() == old(Conteudo()).(
        artistas := old(artistas) + [Artista(id, nome, bio, fotoPerfil, [])],
        proximoArtistaId := id + 1)
    {
      AdicionarArtistaPreserva(Conteudo(), nome, bio, fotoPerfil);
      id := proximoArtistaId;
      artistas := artistas + [Artista(id, nome, bio, fotoPerfil, [])];
      proximoArtistaId := proximoArtistaId + 1;
    }

    /** `DAL<Artista>.Atualizar`: the stored artist with `a`'s id becomes `a`. */
    method AtualizarArtista(a: Artista)
      requires Valid()
      requires TemArtista(artistas, a.id) && AvaliacoesValidas(a)
      modifies this
      ensures Valid()
      ensures Conteudo() == old(Conteudo()).(artistas := Atualizar(old(artistas), IdArtista, a))
    {
      AtualizarArtistaPreserva(Conteudo(), a);
      artistas := Atualizar(artistas, IdArtista, a);
    }

    /** `DAL<Artista>.Deletar`: removes the artist and, by the cascade rule, its songs. */
    method DeletarArtista(id: int)
      requires Valid()
      modifies this
      ensures Valid()
      ensures Conteudo() == old(Conteudo()).(
        artistas := Deletar(old(artistas), IdArtista, id),
        musicas := CascataArtista(old(musicas), id))
    {
      DeletarArtistaPreserva(Conteudo(), id);
      artistas := Deletar(artistas, IdArtista, id);
      musicas := CascataArtista(musicas, id);
    }

    /** `DAL<Musica>.Adicionar` for a new song linked to the genre list `gs`: the
        unsaved genres of the list are inserted with it. A song whose artist does
        not exist violates the required foreign key: nothing is saved. */
    method AdicionarMusica(nome: string, anoLancamento: int, artistaId: int, gs: seq<Genero>) returns (ok: bool)
      requires Valid()
      requires forall i :: 0 <= i < |gs| ==> gs[i].id == NovoId || gs[i] in generos
      modifies this
      ensures Valid()
      ensures ok == TemArtista(old(artistas), artistaId)
      ensures !ok ==> Conteudo() == old(Conteudo())
      ensures ok ==> Conteudo() == old(Conteudo()).(
        musicas := old(musicas) + [Musica(old(proximoMusicaId), nome, anoLancamento, artistaId,
                                          Vinculos(gs, old(proximoGeneroId)))],
        generos := old(generos) + NovosGeneros(gs, old(proximoGeneroId)),
        proximoMusicaId := old(proximoMusicaId) + 1,
        proximoGeneroId := old(proximoGeneroId) + ContarNovos(gs))
    {
      var dono := RecuperarPor(artistas, ArtistaComId(artistaId));
      ok := dono.Some?;
      if !ok {
        return;
      }
      var m := Musica(proximoMusicaId, nome, anoLancamento, artistaId, Vinculos(gs, proximoGeneroId));
      VinculosSalvos(generos, gs, proximoGeneroId);
      NovaMusicaPreserva(Conteudo(), m, NovosGeneros(gs, proximoGeneroId));
      generos := generos + NovosGeneros(gs, proximoGeneroId);
      musicas := musicas + [m];
      proximoMusicaId := proximoMusicaId + 1;
      proximoGeneroId := proximoGeneroId + ContarNovos(gs);
    }

    /** `DAL<Musica>.Atualizar`: the stored song with `m`'s id becomes `m`. */
    method AtualizarMusica(m: Musica)
      requires Valid()
      requires TemArtista(artistas, m.artistaId)
      requires forall g :: g in m.generoIds ==> TemGenero(generos, g)
      modifies this
      ensures Valid()
      ensures Conteudo() == old(Conteudo()).(musicas := Atualizar(old(musicas), IdMusica, m))
    {
      AtualizarMusicaPreserva(Conteudo(), m);
      musicas := Atualizar(musicas, IdMusica, m);
    }

    /** `DAL<Musica>.Deletar`: removes the song; no genre is removed with it. */
    method DeletarMusica(id: int)
      requires Valid()
      modifies this
      ensures Valid()
      ensures Conteudo() == old(Conteudo()).(musicas := Deletar(old(musicas), IdMusica, id))
    {
      DeletarMusicaPreserva(Conteudo(), id);
      musicas := Deletar(musicas, IdMusica, id);
    }

    /** `DAL<Genero>.Adicionar`: a new genre row with a fresh id. */
    method AdicionarGenero(nome: string, descricao: string) returns (id: int)
      requires Valid()
      modifies this
      ensures Valid()
      ensures id == old(proximoGeneroId)
      ensures Conteudo() == old(Conteudo()).(
        generos := old(generos) + [Genero(id, nome, descricao)],
        proximoGeneroId := id + 1)
    {
      AdicionarGeneroPreserva(Conteudo(), nome, descricao);
      id := proximoGeneroId;
      generos := generos + [Genero(id, nome, descricao)];
      proximoGeneroId := proximoGeneroId + 1;
    }

    /** `DAL<Genero>.Deletar`: removes the genre and its join rows; every song stays. */
    method DeletarGenero(id: int)
      requires Valid()
      modifies this
      ensures Valid()
      ensures Conteudo() == old(Conteudo()).(
        generos := Deletar(old(generos), IdGenero, id),
        musicas := DesvincularGenero(old(musicas), id))
    {
      DeletarGeneroPreserva(Conteudo(), id);
      generos := Deletar(generos, IdGenero, id);
      musicas := DesvincularGenero(musicas, id);
    }
  }
}
